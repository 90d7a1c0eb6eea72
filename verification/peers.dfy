/** The peer comparator: the latest UCI occupancy of every other hospital,
    the fixed example list used when the database gives none, and the banded
    24-hour projection added to each peer record. */
module Peers {
  import opened Wrappers
  import opened Capacity
  import opened Forecast

  /** One row of the other-hospitals query: the hospital and its latest
      capacity snapshot. The two bed columns come from a LEFT JOIN and may be
      NULL. */
  datatype PeerRow = PeerRow(
    id: int,
    name: string,
    uciOccupied: Option<int>,
    uciTotal: Option<int>,
    date: string)

  /** The snapshot columns a database-backed peer record carries along. */
  datatype Snapshot = Snapshot(uciOccupied: Option<int>, uciTotal: Option<int>, date: string)

  /** A peer hospital record. Records of the example list have no snapshot;
      the 24-hour forecast and the risk label are keys added later. */
  datatype PeerRecord = PeerRecord(
    id: int,
    name: string,
    occupancy: int,
    snapshot: Option<Snapshot>,
    forecast24h: Option<int>,
    risk: Option<string>)

  /** The row has a positive bed total, so its percentage is computed. */
  predicate HasBeds(row: PeerRow) {
    row.uciTotal.Some? && row.uciTotal.value > 0
  }

  /** The row has beds but a NULL occupied count: the division raises, and
      the whole query result is discarded. */
  predicate RowFails(row: PeerRow) {
    HasBeds(row) && row.uciOccupied.None?
  }

  /** The record built from one row. */
  function RowRecord(row: PeerRow): (rec: PeerRecord)
    requires !RowFails(row)
    ensures rec.id == row.id && rec.name == row.name
    ensures !HasBeds(row) ==> rec.occupancy == 0
    ensures HasBeds(row) ==>
      rec.occupancy == UciOccupancy(row.uciOccupied.value, row.uciTotal.value)
    ensures HasBeds(row) && 0 <= row.uciOccupied.value <= row.uciTotal.value ==>
      0 <= rec.occupancy <= 100
    ensures rec.snapshot == Some(Snapshot(row.uciOccupied, row.uciTotal, row.date))
    ensures rec.forecast24h.None? && rec.risk.None?
  {
    PeerRecord(row.id, row.name,
               if HasBeds(row) then UciOccupancy(row.uciOccupied.value, row.uciTotal.value) else 0,
               Some(Snapshot(row.uciOccupied, row.uciTotal, row.date)), None, None)
  }

  /** The other hospitals' latest occupancy, one record per row in row
      order; empty when the query could not run (`query` is None) or when
      some row makes the computation raise. */
  method OtherHospitalsOccupancy(query: Option<seq<PeerRow>>) returns (peers: seq<PeerRecord>)
    ensures query.None? ==> peers == []
    ensures query.Some? && (exists i :: 0 <= i < |query.value| && RowFails(query.value[i])) ==>
      peers == []
    ensures query.Some? && (forall i :: 0 <= i < |query.value| ==> !RowFails(query.value[i])) ==>
      && |peers| == |query.value|
      && forall i :: 0 <= i < |peers| ==> peers[i] == RowRecord(query.value[i])
  {
    if query.None? {
      return [];
    }
    var rows := query.value;
    peers := [];
    var i := 0;
    while i < |rows|
      invariant 0 <= i <= |rows|
      invariant forall j :: 0 <= j < i ==> !RowFails(rows[j])
      invariant |peers| == i
      invariant forall j :: 0 <= j < i ==> peers[j] == RowRecord(rows[j])
    {
      if RowFails(rows[i]) {
        return [];
      }
      peers := peers + [RowRecord(rows[i])];
      i := i + 1;
    }
  }

  /** Record ids strictly increase along the list. */
  predicate IdsIncreasing(hs: seq<PeerRecord>) {
    forall i, j :: 0 <= i < j < |hs| ==> hs[i].id < hs[j].id
  }

  function Example(id: int, name: string, occupancy: int): PeerRecord {
    PeerRecord(id, name, occupancy, None, None, None)
  }

  /** The fixed list of five example hospitals. */
  function ExampleHospitals(): (hs: seq<PeerRecord>)
    ensures |hs| == 5
    ensures forall i :: 0 <= i < |hs| ==> hs[i].id == i + 1
  {
    [Example(1, "Hospital Regional Manuel Nunez Butron", 65),
     Example(2, "Hospital Carlos Monge Medrano", 45),
     Example(3, "Hospital de Apoyo Ilave", 40),
     Example(4, "Hospital de Apoyo Ayaviri", 35),
     Example(5, "Hospital Regional Honorio Delgado", 85)]
  }

  /** The records of `hs` whose id is not `current`, in their order. */
  function WithoutHospital(hs: seq<PeerRecord>, current: int): (r: seq<PeerRecord>)
    ensures |r| <= |hs|
    ensures forall p :: p in r <==> p in hs && p.id != current
    decreases |hs|
  {
    if hs == [] then []
    else if hs[0].id != current then [hs[0]] + WithoutHospital(hs[1..], current)
    else WithoutHospital(hs[1..], current)
  }

  /** Dropping records keeps the survivors in their order: a list sorted by
      id stays sorted. */
  lemma {:induction false} WithoutHospitalKeepsOrder(hs: seq<PeerRecord>, current: int)
    requires IdsIncreasing(hs)
    ensures IdsIncreasing(WithoutHospital(hs, current))
    decreases |hs|
  {
    if hs != [] {
      var rest := WithoutHospital(hs[1..], current);
      WithoutHospitalKeepsOrder(hs[1..], current);
      if hs[0].id != current {
        forall k | 0 <= k < |rest|
          ensures hs[0].id < rest[k].id
        {
          assert rest[k] in hs[1..];
        }
      }
    }
  }

  /** The fallback list for hospital `current`: every example hospital
      except the current one, in id order. */
  function FallbackPeers(current: int): (peers: seq<PeerRecord>)
    ensures forall p :: p in peers <==> p in ExampleHospitals() && p.id != current
    ensures forall i :: 0 <= i < |peers| ==> peers[i].id != current
    ensures IdsIncreasing(peers)
  {
    var hs := ExampleHospitals();
    WithoutHospitalKeepsOrder(hs, current);
    var r := WithoutHospital(hs, current);
    assert forall i :: 0 <= i < |r| ==> r[i] in r;
    r
  }

  /** A list in which no record has the id keeps all its records. */
  lemma {:induction false} WithoutAbsentHospital(hs: seq<PeerRecord>, current: int)
    requires forall i :: 0 <= i < |hs| ==> hs[i].id != current
    ensures WithoutHospital(hs, current) == hs
    decreases |hs|
  {
    if hs != [] {
      WithoutAbsentHospital(hs[1..], current);
    }
  }

  /** Filtering a concatenation filters each part. */
  lemma {:induction false} WithoutHospitalAppend(a: seq<PeerRecord>, b: seq<PeerRecord>, current: int)
    ensures WithoutHospital(a + b, current) == WithoutHospital(a, current) + WithoutHospital(b, current)
    decreases |a|
  {
    if a == [] {
      assert a + b == b;
    } else {
      assert (a + b)[0] == a[0];
      assert (a + b)[1..] == a[1..] + b;
      WithoutHospitalAppend(a[1..], b, current);
    }
  }

  /** Removing the id of a list's last record, when no other record has it,
      leaves the list without its last record. */
  lemma WithoutLastHospital(hs: seq<PeerRecord>)
    requires |hs| > 0
    requires forall i :: 0 <= i < |hs| - 1 ==> hs[i].id != hs[|hs| - 1].id
    ensures WithoutHospital(hs, hs[|hs| - 1].id) == hs[..|hs| - 1]
  {
    var current := hs[|hs| - 1].id;
    var first, last := hs[..|hs| - 1], [hs[|hs| - 1]];
    assert hs == first + last;
    WithoutHospitalAppend(first, last, current);
    WithoutAbsentHospital(first, current);
    assert last[1..] == [];
  }

  /** Hospital 5 sees the first four example hospitals, in order. */
  lemma FallbackForLastExample()
    ensures FallbackPeers(5) == ExampleHospitals()[..4]
  {
    WithoutLastHospital(ExampleHospitals());
  }

  /** A hospital that is not on the example list sees all five. */
  lemma FallbackForUnlistedHospital(current: int)
    requires !(1 <= current <= 5)
    ensures FallbackPeers(current) == ExampleHospitals()
  {
    WithoutAbsentHospital(ExampleHospitals(), current);
  }

  /** The database answered with at least one row and none of its rows made
      the computation raise: its records are used. */
  predicate DatabaseUsable(query: Option<seq<PeerRow>>) {
    && query.Some?
    && |query.value| > 0
    && forall i :: 0 <= i < |query.value| ==> !RowFails(query.value[i])
  }

  /** The records of rows none of which makes the computation raise. */
  function RowRecords(rows: seq<PeerRow>): (peers: seq<PeerRecord>)
    requires forall i :: 0 <= i < |rows| ==> !RowFails(rows[i])
    ensures |peers| == |rows|
  {
    seq(|rows|, i requires 0 <= i < |rows| => RowRecord(rows[i]))
  }

  /** Which list the pages show: the database records when there are any,
      else the fallback list. */
  function PeerBase(query: Option<seq<PeerRow>>, current: int): seq<PeerRecord> {
    if DatabaseUsable(query) then RowRecords(query.value) else FallbackPeers(current)
  }

  /** The peer list shown on both pages: the database records, or the
      fallback list when those are empty. Given rows that already exclude
      `current` (the query filters on it), no record has that id; the
      fallback list never has it. */
  method PeerList(query: Option<seq<PeerRow>>, current: int) returns (peers: seq<PeerRecord>)
    ensures peers == PeerBase(query, current)
    ensures !DatabaseUsable(query) ==> forall i :: 0 <= i < |peers| ==> peers[i].id != current
    ensures (query.Some? ==> forall i :: 0 <= i < |query.value| ==> query.value[i].id != current) ==>
      forall i :: 0 <= i < |peers| ==> peers[i].id != current
  {
    peers := OtherHospitalsOccupancy(query);
    if peers == [] {
      peers := FallbackPeers(current);
    }
  }

  /** Offset of a peer's occupancy band: +5 from 80, +3 from 60, else +2. */
  function BandOffset(occupancy: int): int {
    if occupancy >= 80 then 5 else if occupancy >= 60 then 3 else 2
  }

  /** A peer's 24-hour projection: its band's offset, capped at 100. */
  function PeerForecast(occupancy: int): (p: int)
    ensures p <= 100
    ensures p < 100 ==> p == occupancy + BandOffset(occupancy)
    ensures occupancy <= 100 ==> occupancy <= p <= occupancy + 5
  {
    Min(100, occupancy + BandOffset(occupancy))
  }

  /** Worked examples: 85% projects to 90% (high risk), 45% to 47% (low). */
  lemma PeerForecastExamples()
    ensures PeerForecast(85) == 90 && RiskBand(90) == High
    ensures PeerForecast(45) == 47 && RiskBand(47) == Low
  {
  }

  /** A peer's projection is in the high band exactly when its occupancy is
      at least 77, and in the moderate band exactly for 58 to 76. */
  lemma PeerBandByOccupancy(occupancy: int)
    ensures RiskBand(PeerForecast(occupancy)) == High <==> occupancy >= 77
    ensures RiskBand(PeerForecast(occupancy)) == Moderate <==> 58 <= occupancy < 77
  {
  }

  /** The record with its `forecast24h` key added. */
  function WithForecast(p: PeerRecord): PeerRecord {
    p.(forecast24h := Some(PeerForecast(p.occupancy)))
  }

  function WithForecasts(ps: seq<PeerRecord>): (r: seq<PeerRecord>)
    ensures |r| == |ps|
  {
    seq(|ps|, i requires 0 <= i < |ps| => WithForecast(ps[i]))
  }

  /** Adding the forecasts keeps the list's order and every record's other
      fields; each added value is the banded projection of the record's
      occupancy, so at most 100 and not below the occupancy when that is at
      most 100. */
  lemma ForecastsOnlyAddKey(ps: seq<PeerRecord>, i: int)
    requires 0 <= i < |ps|
    ensures var r := WithForecasts(ps)[i];
      && r.id == ps[i].id && r.name == ps[i].name && r.occupancy == ps[i].occupancy
      && r.snapshot == ps[i].snapshot && r.risk == ps[i].risk
      && r.forecast24h == Some(PeerForecast(ps[i].occupancy))
      && r.forecast24h.value <= 100
      && (ps[i].occupancy <= 100 ==> r.forecast24h.value >= ps[i].occupancy)
  {
  }

  /** Adds the `forecast24h` key to every record of the list, in place. */
  method AddForecasts(peers: array<PeerRecord>)
    modifies peers
    ensures peers[..] == WithForecasts(old(peers[..]))
  {
    for i := 0 to peers.Length
      invariant forall j :: 0 <= j < i ==> peers[j] == WithForecast(old(peers[j]))
      invariant forall j :: i <= j < peers.Length ==> peers[j] == old(peers[j])
    {
      peers[i] := WithForecast(peers[i]);
    }
  }

  /** The peer list with its projections, as the predictions page gets it. */
  method PeerPredictions(query: Option<seq<PeerRow>>, current: int)
    returns (peers: seq<PeerRecord>)
    ensures peers == WithForecasts(PeerBase(query, current))
    ensures forall i :: 0 <= i < |peers| ==>
      peers[i].forecast24h.Some? && peers[i].forecast24h.value <= 100
  {
    var list := PeerList(query, current);
    var records := new PeerRecord[|list|](i requires 0 <= i < |list| => list[i]);
    assert records[..] == list;
    AddForecasts(records);
    peers := records[..];
  }
}
