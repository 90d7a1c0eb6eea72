/** Bed-occupancy arithmetic of the metrics aggregator: the UCI occupancy
    percentage and the trailing five-point occupancy series. */
module Capacity {
  import opened Wrappers
  import opened Rounding

  /** Length of the trailing occupancy series shown on the dashboard. */
  const SeriesLength := 5

  /** UCI occupancy percentage: `round(occupied / total * 100)` of the
      exact quotient, i.e. the integer nearest to 100·occupied/total, even on
      a tie; 0 when the total is not positive, in which case no division is
      performed. */
  function UciOccupancy(occupied: int, total: int): (pct: int)
    ensures total <= 0 ==> pct == 0
    ensures total > 0 ==> -total <= 2 * (pct * total - 100 * occupied) <= total
    ensures 0 <= occupied <= total ==> 0 <= pct <= 100
  {
    if total > 0 then
      var pct := RoundQuotient(100 * occupied, total);
      assert 0 <= occupied <= total ==> 0 <= pct <= 100 by {
        if 0 <= occupied <= total {
          RoundQuotientWithin(100 * occupied, total, 0, 100);
        }
      }
      pct
    else 0
  }

  /** The percentage is Python's `round` of the ratio times 100, taken as an
      exact real. */
  lemma UciOccupancyIsRound(occupied: int, total: int)
    requires total > 0
    ensures UciOccupancy(occupied, total) ==
      RoundHalfEven(occupied as real / total as real * 100.0)
  {
    RoundQuotientIsRound(100 * occupied, total);
    assert (100 * occupied) as real == 100.0 * occupied as real;
    assert occupied as real / total as real * 100.0 == (100 * occupied) as real / total as real;
  }

  /** More occupied beds never give a lower percentage. */
  lemma OccupancyMonotone(fewer: int, more: int, total: int)
    requires fewer <= more
    ensures UciOccupancy(fewer, total) <= UciOccupancy(more, total)
  {
    if total > 0 {
      RoundQuotientMonotone(100 * fewer, 100 * more, total);
    }
  }

  /** A full unit reads 100%, an empty one 0%; the worked example of 80 of
      100 beds reads 80%. */
  lemma OccupancyLandmarks(total: int)
    requires total > 0
    ensures UciOccupancy(total, total) == 100
    ensures UciOccupancy(0, total) == 0
    ensures UciOccupancy(80, 100) == 80
  {
    RoundQuotientExact(100, total);
    RoundQuotientExact(0, total);
    RoundQuotientExact(80, 100);
  }

  /** The trailing occupancy series as fetched (most recent first, at most
      five rows), padded to five entries: a missing entry repeats the last
      fetched value, or the current occupied count when nothing was
      fetched. */
  method PadSeries<T>(fetched: seq<T>, current: T) returns (series: seq<T>)
    ensures |series| == if |fetched| < SeriesLength then SeriesLength else |fetched|
    ensures series[..|fetched|] == fetched
    ensures forall i :: |fetched| <= i < |series| ==>
      series[i] == if fetched == [] then current else fetched[|fetched| - 1]
  {
    series := fetched;
    while |series| < SeriesLength
      invariant |fetched| <= |series| <= if |fetched| < SeriesLength then SeriesLength else |fetched|
      invariant series[..|fetched|] == fetched
      invariant forall i :: |fetched| <= i < |series| ==>
        series[i] == if fetched == [] then current else fetched[|fetched| - 1]
    {
      var next := if series != [] then series[|series| - 1] else current;
      series := series + [next];
    }
  }

  /** The series raises when the total is positive and some count is NULL:
      the NULL count is then divided. */
  predicate SeriesFails(counts: seq<Option<int>>, total: int) {
    total > 0 && exists i :: 0 <= i < |counts| && counts[i].None?
  }

  /** Each count of the series turned into a percentage against the CURRENT
      total (not the total of the row the count came from); None when a
      NULL count is divided. A NULL count is never divided when the total
      is not positive, and reads 0. */
  function PercentSeries(counts: seq<Option<int>>, total: int): (pcts: Option<seq<int>>)
    ensures pcts.None? <==> SeriesFails(counts, total)
    ensures pcts.Some? ==>
      && |pcts.value| == |counts|
      && (forall i :: 0 <= i < |counts| && counts[i].Some? ==>
            pcts.value[i] == UciOccupancy(counts[i].value, total))
      && (forall i :: 0 <= i < |counts| && counts[i].None? ==> pcts.value[i] == 0)
    ensures pcts.Some? && (forall i :: 0 <= i < |counts| && counts[i].Some? ==>
                             0 <= counts[i].value <= total) ==>
      forall i :: 0 <= i < |pcts.value| ==> 0 <= pcts.value[i] <= 100
  {
    if SeriesFails(counts, total) then None
    else Some(seq(|counts|, i requires 0 <= i < |counts| =>
                if counts[i].Some? then UciOccupancy(counts[i].value, total) else 0))
  }
}
