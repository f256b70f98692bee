/** The three Celery tasks of server/app/tasks.py as operations on the
    state they read and write: the Redis entry GTFS_ODOMETERS and the
    MongoDB collections traffic, traffic_congestion, transport and stops.

    What the outside world answers is a parameter: the downloaded bytes,
    whether the static archive was saved and unzipped, the protobuf
    decoder, the unzipped tables, and whether each database call succeeds.
    `raise self.retry()` is the outcome `Retry`; an exception the task does
    not catch is `Raised`. Changes made before a retry or an exception stay
    made, as they do in the databases. */
module Tasks {
  import opened Wrappers
  import Seqs
  import EasywayStatic
  import TrafficFeed
  import Regions
  import UtilsEasyway
  import StaticAggregates

  /** What `pickle.loads(REDIS.get(GTFS_ODOMETERS_KEY))` meets: no entry
      (`pickle.loads(None)` raises TypeError), bytes that do not unpickle,
      or the map a previous run stored. */
  datatype CacheEntry = Missing | Unreadable | Stored(odometers: map<string, real>)

  /** How one run of a task ends. */
  datatype Outcome = Success | Retry | Raised(error: Error)

  /** What `insert_many([])` raises. */
  const EmptyInsert: Error := TypeError("documents must be a non-empty list")

  /** `FeedMessage.ParseFromString`: the feed's vehicle entities, or None
      on a DecodeError. */
  type FeedDecoder = seq<bv8> -> Option<seq<TrafficFeed.VehicleEntity>>

  /** The unzipped static GTFS files the tasks read. */
  datatype StaticTables = StaticTables(
    agencies: seq<EasywayStatic.AgencyRow>, routes: seq<EasywayStatic.RouteRow>,
    trips: seq<EasywayStatic.TripRow>, stops: seq<EasywayStatic.StopRow>,
    stopTimes: seq<EasywayStatic.StopTimeRow>)

  /** A document of the transport collection: `{"id": k, "data": v}`. */
  datatype StaticDoc = StaticDoc(id: string, data: seq<(string, nat)>)

  /** A document of the stops collection: `{"id": k, **v}`. */
  datatype StopDoc = StopDoc(id: string, stop: EasywayStatic.Stop<UtilsEasyway.StringCoordinates>)

  /** The previous run's odometers; a missing or unreadable entry counts as
      no previous run. */
  function PreviousOdometers(entry: CacheEntry): map<string, real> {
    if entry.Stored? then entry.odometers else map[]
  }

  /** The list `parse_traffic` hands back for a download, empty when
      `collect_traffic` has nothing to insert: no content, a feed that does
      not decode, or a feed without entities. */
  function CollectedTraffic(content: Option<seq<bv8>>, decode: FeedDecoder, now: int,
                            routeRows: seq<EasywayStatic.RouteRow>, cache: CacheEntry)
    : seq<TrafficFeed.TrafficRecord>
  {
    if content.None? || content.value == [] then []
    else
      match decode(content.value)
      case None => []
      case Some(entities) =>
        TrafficFeed.TrafficOf(entities, EasywayStatic.GetRoutesNames(routeRows), PreviousOdometers(cache), now, None)
  }

  /** A download yields records exactly when it is non-empty and decodes to
      a feed with at least one entity; there is then one record per entity,
      and a vehicle the cache does not know has distance zero. */
  lemma {:induction false} CollectedTrafficSpec(content: Option<seq<bv8>>, decode: FeedDecoder, now: int,
                                                routeRows: seq<EasywayStatic.RouteRow>, cache: CacheEntry)
    ensures var records := CollectedTraffic(content, decode, now, routeRows, cache);
      records != [] <==>
        content.Some? && content.value != [] && decode(content.value).Some? && decode(content.value).value != []
    ensures var records := CollectedTraffic(content, decode, now, routeRows, cache);
      records != [] ==>
        && |records| == |decode(content.value).value|
        && forall i :: 0 <= i < |records| && records[i].vehicleId !in PreviousOdometers(cache) ==>
             records[i].distance == 0.0
  {
    var records := CollectedTraffic(content, decode, now, routeRows, cache);
    if records != [] {
      var entities := decode(content.value).value;
      var names := EasywayStatic.GetRoutesNames(routeRows);
      TrafficFeed.TrafficOfEntities(entities, names, PreviousOdometers(cache), now, None);
      TrafficFeed.TrafficDistance(entities, names, PreviousOdometers(cache), now, None);
    }
  }

  /** The route ids of routes.txt in file order. */
  function RouteRowIds(rows: seq<EasywayStatic.RouteRow>): seq<string> {
    Seqs.Map(rows, (row: EasywayStatic.RouteRow) => row.routeId)
  }

  /** The key order of `get_routes_names`'s dictionary. */
  function NameOrder(rows: seq<EasywayStatic.RouteRow>): (order: seq<string>)
    ensures StaticAggregates.IsKeyOrder(order, EasywayStatic.GetRoutesNames(rows))
  {
    var order := Seqs.Dedup(RouteRowIds(rows));
    EasywayStatic.GetRoutesNamesSpec(rows);
    assert forall id :: id in EasywayStatic.GetRoutesNames(rows) ==> id in order by {
      forall id | id in EasywayStatic.GetRoutesNames(rows) ensures id in order {
        var i :| 0 <= i < |rows| && rows[i].routeId == id;
        assert RouteRowIds(rows)[i] == id;
      }
    }
    order
  }

  /** The key order of `get_routes_trips`'s dictionary. */
  function RoutesOrder(rows: seq<EasywayStatic.TripRow>): (order: seq<string>)
    ensures forall i :: 0 <= i < |order| ==> order[i] in EasywayStatic.RoutesTripsOf(rows)
  {
    Seqs.Dedup(EasywayStatic.RouteIdsOf(rows))
  }

  /** The static tables produce the transport documents without a
      KeyError: every route's agency is known, every route with trips has
      a short name, and every stop_times row's trip prefix leads to a
      named route. */
  ghost predicate StaticReady(t: StaticTables) {
    var agencies := EasywayStatic.AgencyNames(t.agencies);
    var routesTrips := EasywayStatic.RoutesTripsOf(t.trips);
    var blockRoutes := StaticAggregates.BlockRoutes(RoutesOrder(t.trips), routesTrips);
    && (forall i :: 0 <= i < |t.routes| ==> t.routes[i].agencyId in agencies)
    && StaticAggregates.GetTransportCounts(EasywayStatic.RoutesOf(t.routes, agencies),
                                           RoutesOrder(t.trips), routesTrips).Ok?
    && (forall j :: 0 <= j < |t.stopTimes| ==>
          StaticAggregates.RowRouteName(t.stopTimes[j], blockRoutes, EasywayStatic.GetRoutesNames(t.routes)).Ok?)
  }

  /** The documents `prepare_easyway_static` writes, in dictionary order. */
  ghost function StaticDocs(t: StaticTables): seq<StaticDoc>
    requires StaticReady(t)
  {
    var agencies := EasywayStatic.AgencyNames(t.agencies);
    var routesTrips := EasywayStatic.RoutesTripsOf(t.trips);
    var counts := StaticAggregates.GetTransportCounts(EasywayStatic.RoutesOf(t.routes, agencies),
                                                      RoutesOrder(t.trips), routesTrips).value;
    var perRoute := StaticAggregates.StopsPerRoutesOf(RoutesOrder(t.trips), routesTrips, NameOrder(t.routes),
                                                      EasywayStatic.GetRoutesNames(t.routes), t.stopTimes);
    [ StaticDoc("stops_per_routes", perRoute),
      StaticDoc("transport_per_agencies", counts.perAgency),
      StaticDoc("transport_per_type", counts.perType),
      StaticDoc("transport_per_routes", counts.perRoute) ]
  }

  /** One document per aggregate under four distinct ids; the per-agency
      and per-type counts each add up to the number of routes, and the
      stops-per-route entries name each route short name once. */
  lemma {:induction false} StaticDocsSpec(t: StaticTables)
    requires StaticReady(t)
    ensures var docs := StaticDocs(t);
      && |docs| == 4
      && docs[0].id == "stops_per_routes" && docs[1].id == "transport_per_agencies"
      && docs[2].id == "transport_per_type" && docs[3].id == "transport_per_routes"
      && Seqs.SumCounts(docs[1].data) == |t.routes|
      && Seqs.SumCounts(docs[2].data) == |t.routes|
      && Seqs.Keys(docs[0].data)
           == Seqs.Dedup(StaticAggregates.NameValues(NameOrder(t.routes), EasywayStatic.GetRoutesNames(t.routes)))
  {
    var agencies := EasywayStatic.AgencyNames(t.agencies);
    var routesTrips := EasywayStatic.RoutesTripsOf(t.trips);
    var routes := EasywayStatic.RoutesOf(t.routes, agencies);
    assert Seqs.SumCounts(StaticDocs(t)[1].data) == |t.routes| by {
      Seqs.CounterSum(StaticAggregates.AgencyNamesOf(routes));
    }
    assert Seqs.SumCounts(StaticDocs(t)[2].data) == |t.routes| by {
      Seqs.CounterSum(StaticAggregates.RouteTypesOf(routes));
    }
    assert Seqs.Keys(StaticDocs(t)[0].data)
             == Seqs.Dedup(StaticAggregates.NameValues(NameOrder(t.routes), EasywayStatic.GetRoutesNames(t.routes))) by {
      StaticAggregates.StopsPerRoutesKeys(RoutesOrder(t.trips), routesTrips, NameOrder(t.routes),
                                          EasywayStatic.GetRoutesNames(t.routes), t.stopTimes);
    }
  }

  /** The stop ids of stops.txt in file order. */
  function StopRowIds(rows: seq<EasywayStatic.StopRow>): seq<string> {
    Seqs.Map(rows, (row: EasywayStatic.StopRow) => row.stopId)
  }

  /** The key order of `parse_stops`'s dictionary. */
  function StopOrder(rows: seq<EasywayStatic.StopRow>): (order: seq<string>)
    ensures forall i :: 0 <= i < |order| ==> order[i] in Seqs.LastWins(UtilsEasyway.StopEntries(rows))
  {
    var order := Seqs.Dedup(StopRowIds(rows));
    assert forall id :: id in order ==> id in Seqs.LastWins(UtilsEasyway.StopEntries(rows)) by {
      forall id | id in order ensures id in Seqs.LastWins(UtilsEasyway.StopEntries(rows)) {
        var i :| 0 <= i < |rows| && StopRowIds(rows)[i] == id;
        assert UtilsEasyway.StopEntries(rows)[i].0 == id;
      }
    }
    order
  }

  /** The lookups `get_stops_data` uses. */
  function StopLookups(t: StaticTables): EasywayStatic.ArrivalLookups {
    EasywayStatic.ArrivalLookups(
      Seqs.LastWins(UtilsEasyway.StopEntries(t.stops)).Keys,
      Seqs.LastWins(EasywayStatic.TripPairs(t.trips)), EasywayStatic.GetRoutesNames(t.routes), false)
  }

  /** `get_stops_data` finishes without a KeyError. */
  ghost predicate StopsReady(t: StaticTables) {
    EasywayStatic.AllArrive(t.stopTimes, StopLookups(t))
  }

  /** The documents `prepare_stops_times` writes, in dictionary order. */
  ghost function StopDocs(t: StaticTables): seq<StopDoc>
    requires StopsReady(t)
  {
    var stops := Seqs.LastWins(UtilsEasyway.StopEntries(t.stops));
    var order := StopOrder(t.stops);
    seq(|order|, i requires 0 <= i < |order| =>
      StopDoc(order[i], EasywayStatic.WithArrivals(stops[order[i]],
                                                   EasywayStatic.ArrivalsAt(t.stopTimes, order[i], StopLookups(t)))))
  }

  function StopDocIds(docs: seq<StopDoc>): seq<string> {
    Seqs.Map(docs, (doc: StopDoc) => doc.id)
  }

  /** One document per stop id of stops.txt, in order of first appearance
      (so no id twice and no other id); a stop that no stop_times row
      names carries no arrivals. */
  lemma {:induction false} StopDocsSpec(t: StaticTables)
    requires StopsReady(t)
    ensures StopDocIds(StopDocs(t)) == Seqs.Dedup(StopRowIds(t.stops))
    ensures var docs := StopDocs(t);
      forall i :: 0 <= i < |docs| && (forall j :: 0 <= j < |t.stopTimes| ==> t.stopTimes[j].stopId != docs[i].id) ==>
        docs[i].stop.arrivals.None?
  {
    var docs := StopDocs(t);
    var order := StopOrder(t.stops);
    var entries := UtilsEasyway.StopEntries(t.stops);
    assert forall i :: 0 <= i < |docs| ==> StopDocIds(docs)[i] == order[i];
    forall i | 0 <= i < |docs| && (forall j :: 0 <= j < |t.stopTimes| ==> t.stopTimes[j].stopId != docs[i].id)
      ensures docs[i].stop.arrivals.None?
    {
      UtilsEasyway.ArrivalsWithoutTimes(t.stopTimes, StopLookups(t), order[i]);
      Seqs.LastWinsValue(entries, order[i]);
      var k :| 0 <= k < |entries| && entries[k].0 == order[i] && entries[k].1 == Seqs.LastWins(entries)[order[i]];
      assert entries[k].1.arrivals.None?;
    }
  }

  /** The stores the tasks write, and the count of `prepare_stops_times`
      runs queued by `prepare_easyway_static`. */
  class TransitStore {
    var odometerCache: CacheEntry
    var traffic: seq<TrafficFeed.TrafficRecord>
    var congestion: seq<UtilsEasyway.CongestionRecord>
    var transport: seq<StaticDoc>
    var stops: seq<StopDoc>
    var stopsTimesQueued: nat

    constructor(cache: CacheEntry)
      ensures odometerCache == cache
      ensures traffic == [] && congestion == [] && transport == [] && stops == []
      ensures stopsTimesQueued == 0
    {
      odometerCache := cache;
      traffic, congestion, transport, stops := [], [], [], [];
      stopsTimesQueued := 0;
    }

    /** `collect_traffic`. The feed's records are inserted, then its
        congestion records; only when both inserts succeed does the cache
        become this run's odometers, so a run that stops early leaves the
        next run measuring distances from the same previous odometers. */
    method CollectTraffic(content: Option<seq<bv8>>, decode: FeedDecoder, now: int,
                          routeRows: seq<EasywayStatic.RouteRow>, regions: seq<Regions.Region>,
                          contains: Regions.Containment, trafficInsertOk: bool, congestionInsertOk: bool)
      returns (outcome: Outcome)
      modifies this
      ensures transport == old(transport) && stops == old(stops) && stopsTimesQueued == old(stopsTimesQueued)
      ensures var records := CollectedTraffic(content, decode, now, routeRows, old(odometerCache));
        records == [] || !trafficInsertOk ==> outcome == Retry && unchanged(this)
      ensures var records := CollectedTraffic(content, decode, now, routeRows, old(odometerCache));
        var docs := UtilsEasyway.CongestionOf(records, regions, contains);
        records != [] && trafficInsertOk ==>
          && traffic == old(traffic) + records
          && (docs == [] ==> outcome == Raised(EmptyInsert) && congestion == old(congestion))
          && (docs != [] && !congestionInsertOk ==> outcome == Retry && congestion == old(congestion))
          && (docs != [] && congestionInsertOk ==>
                && outcome == Success
                && congestion == old(congestion) + docs
                && odometerCache == Stored(TrafficFeed.OdometerMap(records)))
      ensures outcome != Success ==> odometerCache == old(odometerCache)
    {
      if content.None? || content.value == [] {
        return Retry;
      }
      var prev := PreviousOdometers(odometerCache);
      var parsed := UtilsEasyway.ParseTraffic(decode(content.value), now, routeRows, prev);
      if parsed.None? || parsed.value == [] {
        return Retry;
      }
      var records := parsed.value;
      var docs := UtilsEasyway.ParseTrafficCongestion(records, regions, contains);
      if !trafficInsertOk {
        return Retry;
      }
      traffic := traffic + records;
      if docs == [] {
        return Raised(EmptyInsert);
      }
      if !congestionInsertOk {
        return Retry;
      }
      congestion := congestion + docs;
      odometerCache := Stored(TrafficFeed.OdometerMap(records));
      return Success;
    }

    /** `prepare_easyway_static`. The transport collection is dropped and
        refilled with one document per aggregate; a failed insert after the
        drop leaves it empty. Only a full success queues
        `prepare_stops_times`. */
    method PrepareEasywayStatic(downloaded: bool, unzipped: bool, tables: StaticTables,
                                dropOk: bool, insertOk: bool)
      returns (outcome: Outcome)
      modifies this
      ensures odometerCache == old(odometerCache) && traffic == old(traffic) && congestion == old(congestion)
      ensures stops == old(stops)
      ensures !downloaded || !unzipped ==> outcome == Retry && unchanged(this)
      ensures downloaded && unzipped && !StaticReady(tables) ==> outcome.Raised? && unchanged(this)
      ensures downloaded && unzipped && StaticReady(tables) ==>
        && (!dropOk ==> outcome == Retry && unchanged(this))
        && (dropOk && !insertOk ==> outcome == Retry && transport == [] && stopsTimesQueued == old(stopsTimesQueued))
        && (dropOk && insertOk ==>
              && outcome == Success
              && transport == StaticDocs(tables)
              && stopsTimesQueued == old(stopsTimesQueued) + 1)
    {
      if !downloaded {
        return Retry;
      }
      if !unzipped {
        return Retry;
      }
      var routes := EasywayStatic.GetRoutes(tables.agencies, tables.routes);
      if routes.Err? {
        return Raised(routes.error);
      }
      var routesOrder, routesTrips := EasywayStatic.GetRoutesTrips(tables.trips);
      var counts := StaticAggregates.GetTransportCounts(routes.value, routesOrder, routesTrips);
      if counts.Err? {
        return Raised(counts.error);
      }
      var names := EasywayStatic.GetRoutesNames(tables.routes);
      var perRoute := StaticAggregates.GetStopsPerRoutes(routesOrder, routesTrips, NameOrder(tables.routes),
                                                         names, tables.stopTimes);
      if perRoute.Err? {
        return Raised(perRoute.error);
      }
      var docs := [ StaticDoc("stops_per_routes", perRoute.value),
                    StaticDoc("transport_per_agencies", counts.value.perAgency),
                    StaticDoc("transport_per_type", counts.value.perType),
                    StaticDoc("transport_per_routes", counts.value.perRoute) ];
      if !dropOk {
        return Retry;
      }
      transport := [];
      if !insertOk {
        return Retry;
      }
      transport := docs;
      stopsTimesQueued := stopsTimesQueued + 1;
      return Success;
    }

    /** `prepare_stops_times`. The stops collection is dropped and refilled
        with one document per stop; an empty stops file makes the insert
        raise after the drop. */
    method PrepareStopsTimes(tables: StaticTables, dropOk: bool, insertOk: bool) returns (outcome: Outcome)
      modifies this
      ensures odometerCache == old(odometerCache) && traffic == old(traffic) && congestion == old(congestion)
      ensures transport == old(transport) && stopsTimesQueued == old(stopsTimesQueued)
      ensures !StopsReady(tables) ==> outcome.Raised? && unchanged(this)
      ensures StopsReady(tables) ==>
        && (!dropOk ==> outcome == Retry && unchanged(this))
        && (dropOk && StopDocs(tables) == [] ==> outcome == Raised(EmptyInsert) && stops == [])
        && (dropOk && StopDocs(tables) != [] && !insertOk ==> outcome == Retry && stops == [])
        && (dropOk && StopDocs(tables) != [] && insertOk ==> outcome == Success && stops == StopDocs(tables))
    {
      var data := UtilsEasyway.GetStopsData(tables.stops, tables.trips, tables.routes, tables.stopTimes);
      if data.Err? {
        return Raised(data.error);
      }
      var order := StopOrder(tables.stops);
      var docs := seq(|order|, i requires 0 <= i < |order| => StopDoc(order[i], data.value[order[i]]));
      assert docs == StopDocs(tables);
      if !dropOk {
        return Retry;
      }
      stops := [];
      if docs == [] {
        return Raised(EmptyInsert);
      }
      if !insertOk {
        return Retry;
      }
      stops := docs;
      return Success;
    }
  }
}
