/** server/app/utils/easyway.py: the variant `collect_traffic`,
    `prepare_easyway_static` and `prepare_stops_times` call. Its loaders of
    routes, route names, route trips and trips are the same code as those
    of server/app/helpers/easyway_static.py and are modelled once, in
    EasywayStatic; `get_stops_per_routes` and `get_transport_counts` are
    the same code in server/app/helpers/easyway.py and are modelled once,
    in StaticAggregates. */
module UtilsEasyway {
  import opened Wrappers
  import opened Strings
  import Seqs
  import EasywayStatic
  import TrafficFeed
  import Regions

  /** `parse_traffic(gtfs, prev_odometers)`. `feed` is the decoded feed,
      `None` when the bytes do not decode; `now` is `int(time.time())`;
      `routeRows` is routes.txt. */
  method ParseTraffic(feed: Option<seq<TrafficFeed.VehicleEntity>>, now: int,
                      routeRows: seq<EasywayStatic.RouteRow>, prev: map<string, real>)
    returns (traffic: Option<seq<TrafficFeed.TrafficRecord>>)
    ensures feed.None? ==> traffic.None?
    ensures feed.Some? ==>
      traffic == Some(TrafficFeed.TrafficOf(feed.value, EasywayStatic.GetRoutesNames(routeRows), prev, now, None))
  {
    if feed.None? {
      return None;
    }
    var names := EasywayStatic.GetRoutesNames(routeRows);
    var records := TrafficFeed.ParseEntities(feed.value, names, prev, now, None);
    return Some(records);
  }

  /** `MIN_DISTANCE = 1 / 0.4`. */
  const MinDistance: real := 1.0 / 0.4

  /** `get_congestion_percentage`: 100 / mean of the non-zero distances /
      `MIN_DISTANCE`, and 0 where Python's division raises
      ZeroDivisionError (no non-zero distance, or a zero sum). */
  function CongestionPercentage(distances: seq<real>): (v: real)
    ensures var nz := Regions.NonZero(distances);
      if nz == [] || Regions.Sum(nz) == 0.0 then v == 0.0
      else v * (Regions.Sum(nz) / |nz| as real) * MinDistance == 100.0
  {
    var nz := Regions.NonZero(distances);
    if nz == [] then 0.0
    else
      var average := Regions.Sum(nz) / |nz| as real;
      if average == 0.0 then 0.0 else 100.0 / average / MinDistance
  }

  /** The same value in closed form: 40 · (number of non-zero distances) /
      (their sum). */
  lemma {:induction false} CongestionClosedForm(distances: seq<real>)
    requires Regions.NonZero(distances) != [] && Regions.Sum(Regions.NonZero(distances)) != 0.0
    ensures var nz := Regions.NonZero(distances);
      CongestionPercentage(distances) == 40.0 * (|nz| as real) / Regions.Sum(nz)
  {
    var nz := Regions.NonZero(distances);
    var n, s := |nz| as real, Regions.Sum(nz);
    var v := CongestionPercentage(distances);
    assert v * (s / n) * 2.5 == 100.0;
    assert v * s == 40.0 * n by {
      assert v * (s / n) * 2.5 * n == v * s * 2.5;
    }
  }

  /** A zero distance (a vehicle that did not move, or one first seen in
      this run) does not change its region's value. */
  lemma {:induction false} CongestionIgnoresZeros(xs: seq<real>, ys: seq<real>)
    ensures CongestionPercentage(xs + [0.0] + ys) == CongestionPercentage(xs + ys)
  {
    Regions.NonZeroIgnoresZeros(xs, ys);
  }

  /** Distances 10, 0 and 20: the zero is dropped, the mean is 15, and the
      value is 100 / 15 / 2.5. */
  lemma {:induction false} CongestionExample()
    ensures CongestionPercentage([10.0, 0.0, 20.0]) == 8.0 / 3.0
  {
    assert Regions.NonZero([10.0, 0.0, 20.0]) == [10.0, 20.0] by {
      assert [10.0, 0.0, 20.0][1..] == [0.0, 20.0];
      assert [0.0, 20.0][1..] == [20.0];
      assert [20.0][1..] == [];
    }
    assert Regions.Sum([10.0, 20.0]) == 30.0 by {
      assert [10.0, 20.0][..1] == [10.0];
      assert [10.0][..0] == [];
    }
  }

  /** A region's congestion document. */
  datatype CongestionRecord = CongestionRecord(id: string, value: real, timestamp: Option<int>)

  function DistanceSamples(traffic: seq<TrafficFeed.TrafficRecord>): (samples: seq<Regions.Sample>)
    ensures |samples| == |traffic|
    ensures forall i :: 0 <= i < |traffic| ==>
      samples[i] == Regions.Sample(traffic[i].latitude, traffic[i].longitude, traffic[i].distance)
  {
    seq(|traffic|, i requires 0 <= i < |traffic| =>
      Regions.Sample(traffic[i].latitude, traffic[i].longitude, traffic[i].distance))
  }

  /** The comprehension that ends `parse_traffic_congestion`: one document
      per key of the grouping, in key order. */
  function CongestionRecords(g: Regions.Grouping, timestamp: Option<int>): (records: seq<CongestionRecord>)
    ensures |records| == |g.order|
  {
    seq(|g.order|, i requires 0 <= i < |g.order| =>
      CongestionRecord(g.order[i], CongestionPercentage(Regions.Lookup(g, g.order[i])), timestamp))
  }

  /** The whole of `parse_traffic_congestion(traffic)`. */
  function CongestionOf(traffic: seq<TrafficFeed.TrafficRecord>, regions: seq<Regions.Region>,
                        contains: Regions.Containment): seq<CongestionRecord>
  {
    var timestamp := if traffic == [] then None else Some(traffic[0].timestamp);
    CongestionRecords(Regions.Group(DistanceSamples(traffic), regions, contains), timestamp)
  }

  /** `parse_traffic_congestion(traffic)`; `regions` is regions.json in its
      key order. */
  method ParseTrafficCongestion(traffic: seq<TrafficFeed.TrafficRecord>, regions: seq<Regions.Region>,
                                contains: Regions.Containment) returns (records: seq<CongestionRecord>)
    ensures records == CongestionOf(traffic, regions, contains)
  {
    var g := Regions.GroupByRegion(DistanceSamples(traffic), regions, contains);
    var timestamp := if traffic == [] then None else Some(traffic[0].timestamp);
    records := CongestionRecords(g, timestamp);
  }

  /** One document per region that contains at least one vehicle, none for
      any other region, each region at most once; its value is the
      congestion of the distances of exactly the vehicles it contains (0
      when none of them moved); every document carries the first record's
      timestamp. */
  lemma {:induction false} CongestionOfSpec(traffic: seq<TrafficFeed.TrafficRecord>, regions: seq<Regions.Region>,
                                            contains: Regions.Containment)
    requires Regions.DistinctNames(regions)
    ensures var records := CongestionOf(traffic, regions, contains);
      && (forall i, j :: 0 <= i < j < |records| ==> records[i].id != records[j].id)
      && (forall i :: 0 <= i < |records| ==> exists k :: 0 <= k < |regions| && regions[k].name == records[i].id)
      && (forall k :: 0 <= k < |regions| ==>
            ((exists i :: 0 <= i < |records| && records[i].id == regions[k].name) <==>
             (exists j :: 0 <= j < |traffic| && contains(regions[k].bounds, traffic[j].latitude, traffic[j].longitude))))
      && (forall i, k :: 0 <= i < |records| && 0 <= k < |regions| && records[i].id == regions[k].name ==>
            records[i].value == CongestionPercentage(
              Regions.RegionValues(DistanceSamples(traffic), regions[k].bounds, contains)))
      && (forall i :: 0 <= i < |records| ==> traffic != [] && records[i].timestamp == Some(traffic[0].timestamp))
  {
    var samples := DistanceSamples(traffic);
    var g := Regions.Group(samples, regions, contains);
    var records := CongestionOf(traffic, regions, contains);
    Regions.GroupSpec(samples, regions, contains);
    Regions.GroupKeys(samples, regions, contains);
    forall k | 0 <= k < |regions|
      ensures (exists i :: 0 <= i < |records| && records[i].id == regions[k].name) <==>
              (exists j :: 0 <= j < |traffic| && contains(regions[k].bounds, traffic[j].latitude, traffic[j].longitude))
    {
      if exists j :: 0 <= j < |traffic| && contains(regions[k].bounds, traffic[j].latitude, traffic[j].longitude) {
        var j :| 0 <= j < |traffic| && contains(regions[k].bounds, traffic[j].latitude, traffic[j].longitude);
        assert contains(regions[k].bounds, samples[j].latitude, samples[j].longitude);
        var i :| 0 <= i < |g.order| && g.order[i] == regions[k].name;
        assert records[i].id == regions[k].name;
      }
      if exists i :: 0 <= i < |records| && records[i].id == regions[k].name {
        var i :| 0 <= i < |records| && records[i].id == regions[k].name;
        assert g.order[i] in g.values;
        var j :| 0 <= j < |samples| && contains(regions[k].bounds, samples[j].latitude, samples[j].longitude);
        assert traffic[j].latitude == samples[j].latitude;
      }
    }
    if records != [] {
      assert traffic != [];
    }
  }

  /** The record `parse_stops` builds: coordinates stay strings. */
  type StringCoordinates = (string, string)

  function StringStop(row: EasywayStatic.StopRow): EasywayStatic.Stop<StringCoordinates> {
    EasywayStatic.Stop(row.stopName, row.stopDesc, (row.stopLat, row.stopLon), None)
  }

  function StopEntries(rows: seq<EasywayStatic.StopRow>): (entries: seq<(string, EasywayStatic.Stop<StringCoordinates>)>)
    ensures |entries| == |rows|
    ensures forall i :: 0 <= i < |rows| ==> entries[i] == (rows[i].stopId, StringStop(rows[i]))
  {
    seq(|rows|, i requires 0 <= i < |rows| => (rows[i].stopId, StringStop(rows[i])))
  }

  /** `parse_stops`: one entry per distinct stop id, from the last row with
      that id, with latitude and longitude as read. */
  method ParseStops(rows: seq<EasywayStatic.StopRow>) returns (stops: map<string, EasywayStatic.Stop<StringCoordinates>>)
    ensures stops == Seqs.LastWins(StopEntries(rows))
    ensures forall id :: id in stops <==> exists i :: 0 <= i < |rows| && rows[i].stopId == id
    ensures forall i :: 0 <= i < |rows| && (forall j :: i < j < |rows| ==> rows[j].stopId != rows[i].stopId) ==>
      stops[rows[i].stopId] == EasywayStatic.Stop(rows[i].stopName, rows[i].stopDesc, (rows[i].stopLat, rows[i].stopLon), None)
  {
    ghost var entries := StopEntries(rows);
    stops := map[];
    for i := 0 to |rows|
      invariant stops == Seqs.LastWins(entries[..i])
    {
      assert entries[..i + 1][..i] == entries[..i];
      var row := rows[i];
      stops := stops[row.stopId := EasywayStatic.Stop(row.stopName, row.stopDesc, (row.stopLat, row.stopLon), None)];
      assert entries[i] == (row.stopId, StringStop(row));
    }
    assert entries[..|rows|] == entries;
    Seqs.LastWinsSpec(entries);
    forall id | id in stops ensures exists i :: 0 <= i < |rows| && rows[i].stopId == id {
      var i :| 0 <= i < |entries| && entries[i].0 == id;
    }
    forall i | 0 <= i < |rows| && (forall j :: i < j < |rows| ==> rows[j].stopId != rows[i].stopId)
      ensures stops[rows[i].stopId] == entries[i].1
    {
      assert Seqs.LastOccurrence(entries, i);
    }
  }

  /** `get_stops_data`: the stops of stops.txt with, for each stop_times
      row in file order, the arrival of that row's route appended to that
      row's stop; or the KeyError of the first row whose stop, trip or
      route is unknown. */
  method GetStopsData(stopRows: seq<EasywayStatic.StopRow>, tripRows: seq<EasywayStatic.TripRow>,
                      routeRows: seq<EasywayStatic.RouteRow>, stopTimes: seq<EasywayStatic.StopTimeRow>)
    returns (r: Result<map<string, EasywayStatic.Stop<StringCoordinates>>>)
    ensures var stops := Seqs.LastWins(StopEntries(stopRows));
      var lookups := EasywayStatic.ArrivalLookups(
        stops.Keys, Seqs.LastWins(EasywayStatic.TripPairs(tripRows)), EasywayStatic.GetRoutesNames(routeRows), false);
      && (r.Ok? <==> EasywayStatic.AllArrive(stopTimes, lookups))
      && (r.Err? ==>
            exists k :: 0 <= k < |stopTimes| && EasywayStatic.RowArrival(stopTimes[k], lookups).Err? &&
                        (forall j :: 0 <= j < k ==> EasywayStatic.RowArrival(stopTimes[j], lookups).Ok?) &&
                        r.error == EasywayStatic.RowArrival(stopTimes[k], lookups).error)
      && (r.Ok? ==> r.value.Keys == stops.Keys)
      && (r.Ok? ==>
            forall id :: id in stops ==>
              r.value[id] == EasywayStatic.WithArrivals(stops[id], EasywayStatic.ArrivalsAt(stopTimes, id, lookups)))
  {
    var stops := ParseStops(stopRows);
    var trips := EasywayStatic.GetTrips(tripRows);
    var names := EasywayStatic.GetRoutesNames(routeRows);
    r := EasywayStatic.AttachArrivals(stops, stopTimes, EasywayStatic.ArrivalLookups(stops.Keys, trips, names, false));
  }

  /** In this variant no arrival carries an integer time, and a stop that
      no row names keeps no arrivals list. */
  lemma {:induction false} ArrivalsWithoutTimes(stopTimes: seq<EasywayStatic.StopTimeRow>,
                                                lookups: EasywayStatic.ArrivalLookups, id: string)
    requires !lookups.withTimeInteger
    requires EasywayStatic.AllArrive(stopTimes, lookups)
    ensures forall a :: a in EasywayStatic.ArrivalsAt(stopTimes, id, lookups) ==> a.timeInteger.None?
    ensures (forall j :: 0 <= j < |stopTimes| ==> stopTimes[j].stopId != id) ==>
      EasywayStatic.ArrivalsAt(stopTimes, id, lookups) == []
  {
    if stopTimes != [] {
      var init := stopTimes[..|stopTimes| - 1];
      assert EasywayStatic.AllArrive(init, lookups) by {
        assert forall j :: 0 <= j < |init| ==> init[j] == stopTimes[j];
      }
      ArrivalsWithoutTimes(init, lookups, id);
    }
  }
}
