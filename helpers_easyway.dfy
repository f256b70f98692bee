/** server/app/helpers/easyway.py: the variant whose `parse_traffic` takes
    the timestamp from its caller and stamps each record with a date, whose
    congestion compares region speeds with a baseline speed, and whose
    `get_stops_data` also stores each arrival time as seconds. Its
    `get_stops_per_routes` and `get_transport_counts` are modelled in
    StaticAggregates. */
module HelpersEasyway {
  import opened Wrappers
  import Seqs
  import TimeUtils
  import EasywayStatic
  import TrafficFeed
  import Regions

  /** `parse_traffic(gtfs, timestamp, prev_odometers)`. `date` stands for
      `datetime.now().isoformat()`. */
  method ParseTraffic(feed: Option<seq<TrafficFeed.VehicleEntity>>, timestamp: int, date: string,
                      routeRows: seq<EasywayStatic.RouteRow>, prev: map<string, real>)
    returns (traffic: Option<seq<TrafficFeed.TrafficRecord>>)
    ensures feed.None? ==> traffic.None?
    ensures feed.Some? ==>
      traffic == Some(TrafficFeed.TrafficOf(feed.value, EasywayStatic.GetRoutesNames(routeRows), prev, timestamp, Some(date)))
  {
    if feed.None? {
      return None;
    }
    var names := EasywayStatic.GetRoutesNames(routeRows);
    var records := TrafficFeed.ParseEntities(feed.value, names, prev, timestamp, Some(date));
    return Some(records);
  }

  /** The body of the `try` for one region: 100 · `min_speed` / mean of the
      non-zero speeds, or `None` where Python raises and the loop
      continues: ZeroDivisionError when no non-zero speed remains or their
      mean is 0, TypeError when the baseline is missing. */
  function RegionCongestion(speeds: seq<real>, minSpeed: Option<real>): (v: Option<real>)
    ensures var nz := Regions.NonZero(speeds);
      v.Some? <==> nz != [] && Regions.Sum(nz) != 0.0 && minSpeed.Some?
    ensures var nz := Regions.NonZero(speeds);
      v.Some? ==> v.value * (Regions.Sum(nz) / |nz| as real) == 100.0 * minSpeed.value
  {
    var nz := Regions.NonZero(speeds);
    if nz == [] then None
    else
      var average := Regions.Sum(nz) / |nz| as real;
      if minSpeed.None? || average == 0.0 then None
      else Some((100.0 * minSpeed.value) / average)
  }

  datatype CongestionRecord = CongestionRecord(id: string, value: real, timestamp: int)

  function SpeedSamples(traffic: seq<TrafficFeed.TrafficRecord>): (samples: seq<Regions.Sample>)
    ensures |samples| == |traffic|
    ensures forall i :: 0 <= i < |traffic| ==>
      samples[i] == Regions.Sample(traffic[i].latitude, traffic[i].longitude, traffic[i].speed)
  {
    seq(|traffic|, i requires 0 <= i < |traffic| =>
      Regions.Sample(traffic[i].latitude, traffic[i].longitude, traffic[i].speed))
  }

  /** The documents the result loop emits for the keys `order` of the
      grouping `g`, in key order, skipping regions without a value. */
  function Emitted(order: seq<string>, g: Regions.Grouping, minSpeed: Option<real>, timestamp: int)
    : seq<CongestionRecord>
  {
    if order == [] then []
    else
      var init := Emitted(order[..|order| - 1], g, minSpeed, timestamp);
      var name := order[|order| - 1];
      match RegionCongestion(Regions.Lookup(g, name), minSpeed)
      case None => init
      case Some(v) => init + [CongestionRecord(name, v, timestamp)]
  }

  /** The whole of `parse_traffic_congestion(traffic, timestamp)`. */
  function SpeedCongestionOf(traffic: seq<TrafficFeed.TrafficRecord>, regions: seq<Regions.Region>,
                             contains: Regions.Containment, minSpeed: Option<real>, timestamp: int)
    : seq<CongestionRecord>
  {
    var g := Regions.Group(SpeedSamples(traffic), regions, contains);
    Emitted(g.order, g, minSpeed, timestamp)
  }

  /** `parse_traffic_congestion(traffic, timestamp)`. `minSpeed` is the
      baseline `Traffic.get_routes_min_speed()` returns. */
  method ParseTrafficCongestion(traffic: seq<TrafficFeed.TrafficRecord>, regions: seq<Regions.Region>,
                                contains: Regions.Containment, minSpeed: Option<real>, timestamp: int)
    returns (records: seq<CongestionRecord>)
    ensures records == SpeedCongestionOf(traffic, regions, contains, minSpeed, timestamp)
  {
    var g := Regions.GroupByRegion(SpeedSamples(traffic), regions, contains);
    records := [];
    for i := 0 to |g.order|
      invariant records == Emitted(g.order[..i], g, minSpeed, timestamp)
    {
      assert g.order[..i + 1][..i] == g.order[..i];
      var region := g.order[i];
      var value := RegionCongestion(Regions.Lookup(g, region), minSpeed);
      if value.None? {
        continue;
      }
      records := records + [CongestionRecord(region, value.value, timestamp)];
    }
    assert g.order[..|g.order|] == g.order;
  }

  function RecordIds(records: seq<CongestionRecord>): seq<string> {
    Seqs.Map(records, (record: CongestionRecord) => record.id)
  }

  lemma {:induction false} EmittedStep(order: seq<string>, g: Regions.Grouping, minSpeed: Option<real>, timestamp: int)
    requires order != []
    ensures var name := order[|order| - 1];
      var before := Emitted(order[..|order| - 1], g, minSpeed, timestamp);
      var v := RegionCongestion(Regions.Lookup(g, name), minSpeed);
      Emitted(order, g, minSpeed, timestamp)
        == before + (if v.Some? then [CongestionRecord(name, v.value, timestamp)] else [])
  {
    var before := Emitted(order[..|order| - 1], g, minSpeed, timestamp);
    if RegionCongestion(Regions.Lookup(g, order[|order| - 1]), minSpeed).None? {
      assert before + [] == before;
    }
  }

  /** Every emitted document names a key of the order, carries that key's
      value and the caller's timestamp. */
  lemma {:induction false} EmittedFields(order: seq<string>, g: Regions.Grouping, minSpeed: Option<real>, timestamp: int)
    ensures var out := Emitted(order, g, minSpeed, timestamp);
      forall i :: 0 <= i < |out| ==>
        && out[i].id in order
        && RegionCongestion(Regions.Lookup(g, out[i].id), minSpeed) == Some(out[i].value)
        && out[i].timestamp == timestamp
  {
    if order != [] {
      var init := order[..|order| - 1];
      EmittedFields(init, g, minSpeed, timestamp);
      EmittedStep(order, g, minSpeed, timestamp);
      var before := Emitted(init, g, minSpeed, timestamp);
      var out := Emitted(order, g, minSpeed, timestamp);
      forall i | 0 <= i < |out|
        ensures && out[i].id in order
                && RegionCongestion(Regions.Lookup(g, out[i].id), minSpeed) == Some(out[i].value)
                && out[i].timestamp == timestamp
      {
        if i < |before| {
          assert out[i] == before[i];
          var k :| 0 <= k < |init| && init[k] == out[i].id;
          assert order[k] == out[i].id;
        }
      }
    }
  }

  /** Every key of the order with a value gets a document. */
  lemma {:induction false} EmittedComplete(order: seq<string>, g: Regions.Grouping, minSpeed: Option<real>, timestamp: int)
    ensures var out := Emitted(order, g, minSpeed, timestamp);
      forall name :: name in order && RegionCongestion(Regions.Lookup(g, name), minSpeed).Some? ==>
        exists i :: 0 <= i < |out| && out[i].id == name
  {
    if order != [] {
      var init := order[..|order| - 1];
      var name := order[|order| - 1];
      EmittedComplete(init, g, minSpeed, timestamp);
      EmittedStep(order, g, minSpeed, timestamp);
      var before := Emitted(init, g, minSpeed, timestamp);
      var out := Emitted(order, g, minSpeed, timestamp);
      forall x | x in order && RegionCongestion(Regions.Lookup(g, x), minSpeed).Some?
        ensures exists i :: 0 <= i < |out| && out[i].id == x
      {
        if x != name {
          var k :| 0 <= k < |order| && order[k] == x;
          assert init[k] == x;
          var i :| 0 <= i < |before| && before[i].id == x;
          assert out[i] == before[i];
        } else {
          assert out[|out| - 1].id == name;
        }
      }
    }
  }

  /** The documents follow the order's key order. */
  lemma {:induction false} EmittedOrder(order: seq<string>, g: Regions.Grouping, minSpeed: Option<real>, timestamp: int)
    ensures Seqs.IsSubsequence(RecordIds(Emitted(order, g, minSpeed, timestamp)), order)
  {
    var outIds := RecordIds(Emitted(order, g, minSpeed, timestamp));
    if order != [] {
      var init := order[..|order| - 1];
      var name := order[|order| - 1];
      EmittedOrder(init, g, minSpeed, timestamp);
      var ids := RecordIds(Emitted(init, g, minSpeed, timestamp));
      var idx: seq<nat> :| Seqs.Embeds(idx, ids, init);
      EmittedStep(order, g, minSpeed, timestamp);
      if RegionCongestion(Regions.Lookup(g, name), minSpeed).Some? {
        assert outIds == ids + [name];
        assert Seqs.Embeds(idx + [|order| - 1], outIds, order);
      } else {
        assert outIds == ids;
        assert Seqs.Embeds(idx, outIds, order);
      }
    } else {
      var none: seq<nat> := [];
      assert outIds == [];
      assert Seqs.Embeds(none, [], order);
    }
  }

  /** A missing baseline emits no document at all. */
  lemma {:induction false} NoBaselineNoRecords(order: seq<string>, g: Regions.Grouping, timestamp: int)
    ensures Emitted(order, g, None, timestamp) == []
  {
    if order != [] {
      NoBaselineNoRecords(order[..|order| - 1], g, timestamp);
    }
  }

  /** Over the whole pipeline: a region gets a document exactly when some
      vehicle in it has a non-zero speed and the speeds do not cancel out
      and the baseline exists; its value is 100 · baseline / mean of those
      speeds; every document carries the caller's timestamp. */
  lemma {:induction false} SpeedCongestionSpec(traffic: seq<TrafficFeed.TrafficRecord>, regions: seq<Regions.Region>,
                                               contains: Regions.Containment, minSpeed: Option<real>, timestamp: int)
    requires Regions.DistinctNames(regions)
    ensures var records := SpeedCongestionOf(traffic, regions, contains, minSpeed, timestamp);
      && (minSpeed.None? ==> records == [])
      && (forall i :: 0 <= i < |records| ==> records[i].timestamp == timestamp)
      && (forall k :: 0 <= k < |regions| ==>
            var speeds := Regions.RegionValues(SpeedSamples(traffic), regions[k].bounds, contains);
            && ((exists i :: 0 <= i < |records| && records[i].id == regions[k].name) <==>
                RegionCongestion(speeds, minSpeed).Some?)
            && (forall i :: 0 <= i < |records| && records[i].id == regions[k].name ==>
                  Some(records[i].value) == RegionCongestion(speeds, minSpeed)))
  {
    var samples := SpeedSamples(traffic);
    var g := Regions.Group(samples, regions, contains);
    var records := SpeedCongestionOf(traffic, regions, contains, minSpeed, timestamp);
    Regions.GroupSpec(samples, regions, contains);
    EmittedFields(g.order, g, minSpeed, timestamp);
    EmittedComplete(g.order, g, minSpeed, timestamp);
    if minSpeed.None? {
      NoBaselineNoRecords(g.order, g, timestamp);
    }
    forall k | 0 <= k < |regions|
      ensures var speeds := Regions.RegionValues(samples, regions[k].bounds, contains);
        (exists i :: 0 <= i < |records| && records[i].id == regions[k].name) <==>
        RegionCongestion(speeds, minSpeed).Some?
    {
      var name := regions[k].name;
      if RegionCongestion(Regions.Lookup(g, name), minSpeed).Some? {
        assert name in g.order;
      }
    }
  }

  /** `get_stops_data` of this variant: as in UtilsEasyway.GetStopsData, on
      stops with parsed coordinates, and each arrival also carries
      `get_time_integer(arrival_time)`, whose ValueError aborts the run. */
  method GetStopsData(stopRows: seq<EasywayStatic.StopRow>, parse: EasywayStatic.FloatParser,
                      tripRows: seq<EasywayStatic.TripRow>, routeRows: seq<EasywayStatic.RouteRow>,
                      stopTimes: seq<EasywayStatic.StopTimeRow>)
    returns (r: Result<map<string, EasywayStatic.Stop<EasywayStatic.Coordinates>>>)
    ensures (exists i :: 0 <= i < |stopRows| && !EasywayStatic.RowParses(stopRows[i], parse)) ==> r.Err?
    ensures (forall i :: 0 <= i < |stopRows| ==> EasywayStatic.RowParses(stopRows[i], parse)) ==>
      var stops := Seqs.LastWins(EasywayStatic.StopEntries(stopRows, parse));
      var lookups := EasywayStatic.ArrivalLookups(
        stops.Keys, Seqs.LastWins(EasywayStatic.TripPairs(tripRows)), EasywayStatic.GetRoutesNames(routeRows), true);
      && (r.Ok? <==> EasywayStatic.AllArrive(stopTimes, lookups))
      && (r.Ok? ==> r.value.Keys == stops.Keys)
      && (r.Ok? ==>
            forall id :: id in stops ==>
              r.value[id] == EasywayStatic.WithArrivals(stops[id], EasywayStatic.ArrivalsAt(stopTimes, id, lookups)))
  {
    var stops := EasywayStatic.GetStops(stopRows, parse);
    if stops.Err? {
      return Err(stops.error);
    }
    var trips := EasywayStatic.GetTrips(tripRows);
    var names := EasywayStatic.GetRoutesNames(routeRows);
    r := EasywayStatic.AttachArrivals(stops.value, stopTimes,
                                      EasywayStatic.ArrivalLookups(stops.value.Keys, trips, names, true));
  }

  /** Every stored arrival's integer time is `get_time_integer` of its
      arrival time. */
  lemma {:induction false} ArrivalTimeIntegers(stopTimes: seq<EasywayStatic.StopTimeRow>,
                                               lookups: EasywayStatic.ArrivalLookups, id: string)
    requires lookups.withTimeInteger
    requires EasywayStatic.AllArrive(stopTimes, lookups)
    ensures forall a :: a in EasywayStatic.ArrivalsAt(stopTimes, id, lookups) ==>
      a.timeInteger.Some? && TimeUtils.GetTimeInteger(a.arrivalTime) == Ok(a.timeInteger.value)
  {
    if stopTimes != [] {
      var init := stopTimes[..|stopTimes| - 1];
      assert EasywayStatic.AllArrive(init, lookups) by {
        assert forall j :: 0 <= j < |init| ==> init[j] == stopTimes[j];
      }
      ArrivalTimeIntegers(init, lookups, id);
    }
  }
}
