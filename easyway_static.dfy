/** server/app/helpers/easyway_static.py: the GTFS Schedule reference tables
    (routes, agencies, trips, stops) turned into lookup structures, and the
    route category derived from a route's short name.

    Each file arrives as its rows, already read; a row carries the columns
    the core uses. */
module EasywayStatic {
  import opened Wrappers
  import opened Strings
  import TimeUtils
  import Seqs

  datatype RouteRow = RouteRow(routeId: string, agencyId: string, shortName: string, longName: string)
  datatype AgencyRow = AgencyRow(agencyId: string, agencyName: string)
  datatype TripRow = TripRow(routeId: string, tripId: string, blockId: string)
  datatype StopRow = StopRow(stopId: string, stopName: string, stopDesc: string, stopLat: string, stopLon: string)
  datatype StopTimeRow = StopTimeRow(tripId: string, stopId: string, arrivalTime: string)

  /** An entry of the `routes` list. `trips` is always empty when built. */
  datatype Route = Route(
    id: string, routeType: string, shortName: string, longName: string,
    agencyId: string, agencyName: string, trips: seq<string>)

  /** One scheduled arrival at a stop; `timeInteger` is present only in the
      variant that stores `arrival_time_integer`. */
  datatype Arrival = Arrival(routeName: string, arrivalTime: string, timeInteger: Option<int>)

  /** A stop record. The coordinates are kept as two strings by one loader
      and as a parsed `[lat, lon]` pair by the other; `arrivals` is absent
      until a stop_times row names the stop. */
  datatype Stop<C> = Stop(name: string, desc: string, coordinates: C, arrivals: Option<seq<Arrival>>)

  /** `ROUTE_TYPE_MAP`: the category of each short-name prefix. */
  const RouteTypeMap: map<string, string> := map[
    "А" := "Автобус",
    "Н-А" := "Нічний Автобус",
    "Т" := "Трамвай",
    "Тр" := "Тролейбус"
  ]

  /** The category of any prefix the map does not know. */
  const OtherRouteType: string := "Інші"

  /** The category of a route: its short name with every digit deleted,
      looked up in `ROUTE_TYPE_MAP`, "Інші" when absent. */
  function RouteType(shortName: string): (t: string)
    ensures t in RouteTypeMap.Values || t == OtherRouteType
    ensures t == OtherRouteType <==> RemoveDigits(shortName) !in RouteTypeMap
  {
    var prefix := RemoveDigits(shortName);
    if prefix in RouteTypeMap then RouteTypeMap[prefix] else OtherRouteType
  }

  /** Adding or removing digits anywhere in a short name keeps its category. */
  lemma {:induction false} RouteTypeIgnoresDigits(p: string, d: string, q: string)
    requires AllDigits(d)
    ensures RouteType(p + d + q) == RouteType(p + q)
  {
    RemoveDigitsIgnoresDigitRun(p, d, q);
  }

  /** A known prefix followed by a route number has the prefix's category. */
  lemma {:induction false} RouteTypeOfNumberedRoute(prefix: string, number: string)
    requires prefix in RouteTypeMap
    requires AllDigits(number)
    ensures RouteType(prefix + number) == RouteTypeMap[prefix]
  {
    RemoveDigitsIgnoresDigitRun(prefix, number, []);
    assert prefix + number + [] == prefix + number && prefix + [] == prefix;
    assert forall c :: c in prefix ==> IsNotDigit(c);
    Seqs.FilterKeepsAll(prefix, IsNotDigit);
  }

  /** Digits of any script are deleted, not only ASCII ones: "А" followed
      by ARABIC-INDIC DIGIT THREE is a bus route. */
  lemma {:induction false} RouteTypeOfNonAsciiNumber()
    ensures RouteType("А\U{0663}") == "Автобус"
  {
    RouteTypeOfNumberedRoute("А", "\U{0663}");
  }

  function RouteNamePairs(rows: seq<RouteRow>): (pairs: seq<(string, string)>)
    ensures |pairs| == |rows|
    ensures forall i :: 0 <= i < |rows| ==> pairs[i] == (rows[i].routeId, rows[i].shortName)
  {
    seq(|rows|, i requires 0 <= i < |rows| => (rows[i].routeId, rows[i].shortName))
  }

  /** `get_routes_names`: route id to short name. */
  function GetRoutesNames(rows: seq<RouteRow>): map<string, string> {
    Seqs.LastWins(RouteNamePairs(rows))
  }

  /** Every route id of the file is a key, no other key is, and a later row
      with the same id overwrites an earlier one. */
  lemma {:induction false} GetRoutesNamesSpec(rows: seq<RouteRow>)
    ensures forall id :: id in GetRoutesNames(rows) <==> exists i :: 0 <= i < |rows| && rows[i].routeId == id
    ensures forall i :: 0 <= i < |rows| && (forall j :: i < j < |rows| ==> rows[j].routeId != rows[i].routeId) ==>
              GetRoutesNames(rows)[rows[i].routeId] == rows[i].shortName
  {
    var pairs := RouteNamePairs(rows);
    Seqs.LastWinsSpec(pairs);
    forall id | id in GetRoutesNames(rows) ensures exists i :: 0 <= i < |rows| && rows[i].routeId == id {
      var i :| 0 <= i < |pairs| && pairs[i].0 == id;
    }
    forall i | 0 <= i < |rows| && (forall j :: i < j < |rows| ==> rows[j].routeId != rows[i].routeId)
      ensures GetRoutesNames(rows)[rows[i].routeId] == rows[i].shortName
    {
      assert Seqs.LastOccurrence(pairs, i);
    }
  }

  function AgencyPairs(rows: seq<AgencyRow>): (pairs: seq<(string, string)>)
    ensures |pairs| == |rows|
    ensures forall i :: 0 <= i < |rows| ==> pairs[i] == (rows[i].agencyId, rows[i].agencyName)
  {
    seq(|rows|, i requires 0 <= i < |rows| => (rows[i].agencyId, rows[i].agencyName))
  }

  /** The `agencies` dictionary of `get_routes`: agency id to name. */
  function AgencyNames(rows: seq<AgencyRow>): map<string, string> {
    Seqs.LastWins(AgencyPairs(rows))
  }

  /** `route` is the entry `get_routes` builds from `row`. */
  ghost predicate IsRouteOf(route: Route, row: RouteRow, agencies: map<string, string>) {
    && row.agencyId in agencies
    && route.id == row.routeId
    && route.shortName == row.shortName
    && route.routeType == RouteType(row.shortName)
    && route.longName == row.longName
    && route.agencyId == row.agencyId
    && route.agencyName == agencies[row.agencyId]
    && route.trips == []
  }

  /** The entry built from a routes row whose agency is known. */
  function RouteOf(row: RouteRow, agencies: map<string, string>): Route
    requires row.agencyId in agencies
  {
    Route(row.routeId, RouteType(row.shortName), row.shortName, row.longName,
          row.agencyId, agencies[row.agencyId], [])
  }

  /** The routes list of a routes file whose agencies are all known. */
  function RoutesOf(routeRows: seq<RouteRow>, agencies: map<string, string>): seq<Route>
    requires forall i :: 0 <= i < |routeRows| ==> routeRows[i].agencyId in agencies
  {
    seq(|routeRows|, i requires 0 <= i < |routeRows| => RouteOf(routeRows[i], agencies))
  }

  /** `get_routes`: one entry per routes row, in file order, or the
      KeyError of the first row whose agency is not in the agency file. */
  method GetRoutes(agencyRows: seq<AgencyRow>, routeRows: seq<RouteRow>) returns (r: Result<seq<Route>>)
    ensures r.Ok? <==> forall i :: 0 <= i < |routeRows| ==> routeRows[i].agencyId in AgencyNames(agencyRows)
    ensures r.Ok? ==> |r.value| == |routeRows|
    ensures r.Ok? ==>
      forall i :: 0 <= i < |routeRows| ==> IsRouteOf(r.value[i], routeRows[i], AgencyNames(agencyRows))
    ensures r.Err? ==>
      exists k :: 0 <= k < |routeRows| && routeRows[k].agencyId !in AgencyNames(agencyRows) &&
                  (forall j :: 0 <= j < k ==> routeRows[j].agencyId in AgencyNames(agencyRows)) &&
                  r.error == KeyError(routeRows[k].agencyId)
    ensures r.Ok? ==> r.value == RoutesOf(routeRows, AgencyNames(agencyRows))
  {
    var agencies := AgencyNames(agencyRows);
    var routes: seq<Route> := [];
    for i := 0 to |routeRows|
      invariant |routes| == i
      invariant forall j :: 0 <= j < i ==> routeRows[j].agencyId in agencies
      invariant forall j :: 0 <= j < i ==> routes[j] == RouteOf(routeRows[j], agencies)
      invariant forall j :: 0 <= j < i ==> IsRouteOf(routes[j], routeRows[j], agencies)
    {
      var row := routeRows[i];
      if row.agencyId !in agencies {
        return Err(KeyError(row.agencyId));
      }
      routes := routes + [Route(row.routeId, RouteType(row.shortName), row.shortName, row.longName,
                                row.agencyId, agencies[row.agencyId], [])];
    }
    return Ok(routes);
  }

  /** The route id of each trips row, in file order. */
  function RouteIdsOf(rows: seq<TripRow>): seq<string> {
    Seqs.Map(rows, (row: TripRow) => row.routeId)
  }

  /** The block ids of the trips rows of route `routeId`. */
  function BlocksOf(rows: seq<TripRow>, routeId: string): set<string> {
    set i | 0 <= i < |rows| && rows[i].routeId == routeId :: rows[i].blockId
  }

  /** The dictionary `get_routes_trips` builds, without its key order. */
  function RoutesTripsOf(rows: seq<TripRow>): map<string, set<string>> {
    map id | id in RouteIdsOf(rows) :: BlocksOf(rows, id)
  }

  /** `get_routes_trips`: each route id with at least one trips row maps to
      the set of its block ids, and no other route appears. `order` is the
      dictionary's key order, first occurrence in the file. */
  method GetRoutesTrips(rows: seq<TripRow>) returns (order: seq<string>, routesTrips: map<string, set<string>>)
    ensures order == Seqs.Dedup(RouteIdsOf(rows))
    ensures forall id :: id in routesTrips <==> id in order
    ensures forall id :: id in routesTrips <==> exists i :: 0 <= i < |rows| && rows[i].routeId == id
    ensures forall id :: id in routesTrips ==> routesTrips[id] == BlocksOf(rows, id)
    ensures routesTrips == RoutesTripsOf(rows)
  {
    ghost var ids := RouteIdsOf(rows);
    assert |ids| == |rows| && forall k :: 0 <= k < |rows| ==> ids[k] == rows[k].routeId;
    order, routesTrips := [], map[];
    for i := 0 to |rows|
      invariant order == Seqs.Dedup(ids[..i])
      invariant forall id :: id in routesTrips <==> id in order
      invariant forall id :: id in routesTrips ==> routesTrips[id] == BlocksOf(rows[..i], id)
    {
      var row := rows[i];
      assert ids[..i + 1][..i] == ids[..i];
      if row.routeId !in routesTrips {
        order := order + [row.routeId];
        routesTrips := routesTrips[row.routeId := {}];
      }
      routesTrips := routesTrips[row.routeId := routesTrips[row.routeId] + {row.blockId}];
      forall id | id in routesTrips ensures routesTrips[id] == BlocksOf(rows[..i + 1], id) {
        BlocksOfExtend(rows, i, id);
      }
    }
    assert rows[..|rows|] == rows;
    assert ids[..|rows|] == ids;
    forall id | id in routesTrips ensures exists i :: 0 <= i < |rows| && rows[i].routeId == id {
      var i :| 0 <= i < |ids| && ids[i] == id;
    }
  }

  lemma {:induction false} BlocksOfExtend(rows: seq<TripRow>, i: int, routeId: string)
    requires 0 <= i < |rows|
    ensures BlocksOf(rows[..i + 1], routeId)
      == BlocksOf(rows[..i], routeId) + (if rows[i].routeId == routeId then {rows[i].blockId} else {})
  {
    var prefix, longer := rows[..i], rows[..i + 1];
    assert forall j :: 0 <= j < i ==> longer[j] == prefix[j];
    if rows[i].routeId == routeId {
      assert longer[i].blockId in BlocksOf(longer, routeId);
    }
  }

  function TripPairs(rows: seq<TripRow>): (pairs: seq<(string, string)>)
    ensures |pairs| == |rows|
    ensures forall i :: 0 <= i < |rows| ==> pairs[i] == (rows[i].tripId, rows[i].routeId)
  {
    seq(|rows|, i requires 0 <= i < |rows| => (rows[i].tripId, rows[i].routeId))
  }

  /** `get_trips`: each trip id maps to the route id of the last row that
      carries it. */
  method GetTrips(rows: seq<TripRow>) returns (trips: map<string, string>)
    ensures trips == Seqs.LastWins(TripPairs(rows))
    ensures forall id :: id in trips <==> exists i :: 0 <= i < |rows| && rows[i].tripId == id
    ensures forall i :: 0 <= i < |rows| && (forall j :: i < j < |rows| ==> rows[j].tripId != rows[i].tripId) ==>
              trips[rows[i].tripId] == rows[i].routeId
  {
    ghost var pairs := TripPairs(rows);
    trips := map[];
    for i := 0 to |rows|
      invariant trips == Seqs.LastWins(pairs[..i])
    {
      assert pairs[..i + 1][..i] == pairs[..i];
      trips := trips[rows[i].tripId := rows[i].routeId];
    }
    assert pairs[..|rows|] == pairs;
    Seqs.LastWinsSpec(pairs);
    forall id | id in trips ensures exists i :: 0 <= i < |rows| && rows[i].tripId == id {
      var i :| 0 <= i < |pairs| && pairs[i].0 == id;
    }
    forall i | 0 <= i < |rows| && (forall j :: i < j < |rows| ==> rows[j].tripId != rows[i].tripId)
      ensures trips[rows[i].tripId] == rows[i].routeId
    {
      assert Seqs.LastOccurrence(pairs, i);
    }
  }

  /** Python's `float(s)`; `None` stands for its ValueError. Float parsing
      is not part of this model. */
  type FloatParser = string -> Option<real>

  /** A parsed stop coordinate pair, latitude first. */
  type Coordinates = (real, real)

  predicate RowParses(row: StopRow, parse: FloatParser) {
    parse(row.stopLat).Some? && parse(row.stopLon).Some?
  }

  /** The error `float` raises on the first field of `row` it rejects. */
  function RowParseError(row: StopRow, parse: FloatParser): Error
    requires !RowParses(row, parse)
  {
    if parse(row.stopLat).None? then ValueError(row.stopLat) else ValueError(row.stopLon)
  }

  /** The record `get_stops` builds from a row whose coordinates parse. */
  function ParsedStop(row: StopRow, parse: FloatParser): Stop<Coordinates>
    requires RowParses(row, parse)
  {
    Stop(row.stopName, row.stopDesc, (parse(row.stopLat).value, parse(row.stopLon).value), None)
  }

  function StopEntries(rows: seq<StopRow>, parse: FloatParser): (entries: seq<(string, Stop<Coordinates>)>)
    requires forall i :: 0 <= i < |rows| ==> RowParses(rows[i], parse)
    ensures |entries| == |rows|
    ensures forall i :: 0 <= i < |rows| ==> entries[i] == (rows[i].stopId, ParsedStop(rows[i], parse))
  {
    seq(|rows|, i requires 0 <= i < |rows| => (rows[i].stopId, ParsedStop(rows[i], parse)))
  }

  /** The dictionary built from the entries holds every stop id of the
      rows and no other, each with the record of its last row. */
  lemma {:induction false} StopEntriesSpec(rows: seq<StopRow>, parse: FloatParser)
    requires forall i :: 0 <= i < |rows| ==> RowParses(rows[i], parse)
    ensures var stops := Seqs.LastWins(StopEntries(rows, parse));
      && (forall id :: id in stops <==> exists i :: 0 <= i < |rows| && rows[i].stopId == id)
      && (forall i :: 0 <= i < |rows| && (forall j :: i < j < |rows| ==> rows[j].stopId != rows[i].stopId) ==>
            stops[rows[i].stopId] == ParsedStop(rows[i], parse))
  {
    var entries := StopEntries(rows, parse);
    var stops := Seqs.LastWins(entries);
    Seqs.LastWinsSpec(entries);
    forall id | id in stops ensures exists i :: 0 <= i < |rows| && rows[i].stopId == id {
      var i :| 0 <= i < |entries| && entries[i].0 == id;
    }
    forall i | 0 <= i < |rows| && (forall j :: i < j < |rows| ==> rows[j].stopId != rows[i].stopId)
      ensures stops[rows[i].stopId] == ParsedStop(rows[i], parse)
    {
      assert Seqs.LastOccurrence(entries, i);
    }
  }

  /** `get_stops`: one entry per distinct stop id, from the last row with
      that id, coordinates as (latitude, longitude); or the ValueError of
      the first coordinate that does not parse. */
  method GetStops(rows: seq<StopRow>, parse: FloatParser) returns (r: Result<map<string, Stop<Coordinates>>>)
    ensures r.Ok? <==> forall i :: 0 <= i < |rows| ==> RowParses(rows[i], parse)
    ensures r.Err? ==>
      exists k :: 0 <= k < |rows| && !RowParses(rows[k], parse) &&
                  (forall j :: 0 <= j < k ==> RowParses(rows[j], parse)) &&
                  r.error == RowParseError(rows[k], parse)
    ensures r.Ok? ==> r.value == Seqs.LastWins(StopEntries(rows, parse))
    ensures r.Ok? ==> forall id :: id in r.value <==> exists i :: 0 <= i < |rows| && rows[i].stopId == id
    ensures r.Ok? ==> forall i :: 0 <= i < |rows| && (forall j :: i < j < |rows| ==> rows[j].stopId != rows[i].stopId) ==>
      r.value[rows[i].stopId] == Stop(rows[i].stopName, rows[i].stopDesc,
                                      (parse(rows[i].stopLat).value, parse(rows[i].stopLon).value), None)
  {
    var stops: map<string, Stop<Coordinates>> := map[];
    for i := 0 to |rows|
      invariant forall j :: 0 <= j < i ==> RowParses(rows[j], parse)
      invariant stops == Seqs.LastWins(StopEntries(rows[..i], parse))
    {
      var row := rows[i];
      var lat := parse(row.stopLat);
      if lat.None? {
        return Err(ValueError(row.stopLat));
      }
      var lon := parse(row.stopLon);
      if lon.None? {
        return Err(ValueError(row.stopLon));
      }
      assert StopEntries(rows[..i + 1], parse)[..i] == StopEntries(rows[..i], parse);
      stops := stops[row.stopId := Stop(row.stopName, row.stopDesc, (lat.value, lon.value), None)];
    }
    assert rows[..|rows|] == rows;
    StopEntriesSpec(rows, parse);
    return Ok(stops);
  }

  /** The lookups `get_stops_data` resolves each stop_times row against. */
  datatype ArrivalLookups = ArrivalLookups(
    stopIds: set<string>, trips: map<string, string>, routeNames: map<string, string>,
    withTimeInteger: bool)

  /** The arrival a stop_times row adds, or the error its lookups raise:
      the stop, then the trip, then the route, then (in the variant that
      stores it) the integer arrival time. */
  function RowArrival(row: StopTimeRow, lookups: ArrivalLookups): Result<Arrival> {
    if row.stopId !in lookups.stopIds then Err(KeyError(row.stopId))
    else if row.tripId !in lookups.trips then Err(KeyError(row.tripId))
    else if lookups.trips[row.tripId] !in lookups.routeNames then Err(KeyError(lookups.trips[row.tripId]))
    else
      var routeName := lookups.routeNames[lookups.trips[row.tripId]];
      if !lookups.withTimeInteger then Ok(Arrival(routeName, row.arrivalTime, None))
      else
        match TimeUtils.GetTimeInteger(row.arrivalTime)
        case Ok(t) => Ok(Arrival(routeName, row.arrivalTime, Some(t)))
        case Err(e) => Err(e)
  }

  ghost predicate AllArrive(rows: seq<StopTimeRow>, lookups: ArrivalLookups) {
    forall j :: 0 <= j < |rows| ==> RowArrival(rows[j], lookups).Ok?
  }

  /** The arrivals the rows add to stop `stopId`, in file order. */
  ghost function ArrivalsAt(rows: seq<StopTimeRow>, stopId: string, lookups: ArrivalLookups): seq<Arrival>
    requires AllArrive(rows, lookups)
  {
    if rows == [] then []
    else
      var init := ArrivalsAt(rows[..|rows| - 1], stopId, lookups);
      if rows[|rows| - 1].stopId == stopId then init + [RowArrival(rows[|rows| - 1], lookups).value] else init
  }

  lemma {:induction false} ArrivalsAtExtend(rows: seq<StopTimeRow>, i: int, stopId: string, lookups: ArrivalLookups)
    requires 0 <= i < |rows|
    requires AllArrive(rows[..i + 1], lookups)
    ensures AllArrive(rows[..i], lookups)
    ensures ArrivalsAt(rows[..i + 1], stopId, lookups) == ArrivalsAt(rows[..i], stopId, lookups) +
      (if rows[i].stopId == stopId then [RowArrival(rows[i], lookups).value] else [])
  {
    assert rows[..i + 1][..i] == rows[..i];
  }

  /** A stop after `added` arrivals were appended to its list; a stop that
      gets none keeps its record unchanged (no "arrivals" key appears). */
  function WithArrivals<C>(stop: Stop<C>, added: seq<Arrival>): Stop<C> {
    if added == [] then stop
    else stop.(arrivals := Some((if stop.arrivals.Some? then stop.arrivals.value else []) + added))
  }

  /** `stop["arrivals"].append(a)`, creating the list first when absent. */
  function Appended<C>(stop: Stop<C>, a: Arrival): Stop<C> {
    stop.(arrivals := Some((if stop.arrivals.Some? then stop.arrivals.value else []) + [a]))
  }

  lemma {:induction false} WithArrivalsAppend<C>(stop: Stop<C>, added: seq<Arrival>, a: Arrival)
    ensures WithArrivals(stop, added + [a]) == Appended(WithArrivals(stop, added), a)
  {
    if added != [] {
      var existing := if stop.arrivals.Some? then stop.arrivals.value else [];
      assert existing + (added + [a]) == (existing + added) + [a];
    } else {
      assert added + [a] == [a];
    }
  }

  /** One iteration of the loop of `get_stops_data` keeps the loop's invariant. */
  lemma {:induction false} AttachStep<C>(stops: map<string, Stop<C>>, before: map<string, Stop<C>>,
                                         rows: seq<StopTimeRow>, i: int, lookups: ArrivalLookups)
    requires 0 <= i < |rows| && rows[i].stopId in before && before.Keys == stops.Keys
    requires forall j :: 0 <= j <= i ==> RowArrival(rows[j], lookups).Ok?
    requires AllArrive(rows[..i], lookups)
    requires forall id :: id in stops ==> before[id] == WithArrivals(stops[id], ArrivalsAt(rows[..i], id, lookups))
    ensures AllArrive(rows[..i + 1], lookups)
    ensures var after := before[rows[i].stopId := Appended(before[rows[i].stopId], RowArrival(rows[i], lookups).value)];
      forall id :: id in stops ==> after[id] == WithArrivals(stops[id], ArrivalsAt(rows[..i + 1], id, lookups))
  {
    assert AllArrive(rows[..i + 1], lookups) by {
      assert forall j :: 0 <= j <= i ==> rows[..i + 1][j] == rows[j];
    }
    var a := RowArrival(rows[i], lookups).value;
    var after := before[rows[i].stopId := Appended(before[rows[i].stopId], a)];
    forall id | id in stops
      ensures after[id] == WithArrivals(stops[id], ArrivalsAt(rows[..i + 1], id, lookups))
    {
      ArrivalsAtExtend(rows, i, id, lookups);
      var earlier := ArrivalsAt(rows[..i], id, lookups);
      if id == rows[i].stopId {
        WithArrivalsAppend(stops[id], earlier, a);
      } else {
        assert earlier + [] == earlier;
      }
    }
  }

  /** The loop of `get_stops_data`: append one arrival per stop_times row
      to that row's stop, in file order; or the error of the first row
      whose lookups fail. */
  method AttachArrivals<C>(stops: map<string, Stop<C>>, rows: seq<StopTimeRow>, lookups: ArrivalLookups)
    returns (r: Result<map<string, Stop<C>>>)
    requires lookups.stopIds == stops.Keys
    ensures r.Ok? <==> AllArrive(rows, lookups)
    ensures r.Err? ==>
      exists k :: 0 <= k < |rows| && RowArrival(rows[k], lookups).Err? &&
                  (forall j :: 0 <= j < k ==> RowArrival(rows[j], lookups).Ok?) &&
                  r.error == RowArrival(rows[k], lookups).error
    ensures r.Ok? ==> r.value.Keys == stops.Keys
    ensures r.Ok? ==>
      forall id :: id in stops ==> r.value[id] == WithArrivals(stops[id], ArrivalsAt(rows, id, lookups))
  {
    var result := stops;
    for i := 0 to |rows|
      invariant forall j :: 0 <= j < i ==> RowArrival(rows[j], lookups).Ok?
      invariant AllArrive(rows[..i], lookups)
      invariant result.Keys == stops.Keys
      invariant forall id :: id in stops ==> result[id] == WithArrivals(stops[id], ArrivalsAt(rows[..i], id, lookups))
    {
      var row := rows[i];
      var arrival := RowArrival(row, lookups);
      if arrival.Err? {
        return Err(arrival.error);
      }
      AttachStep(stops, result, rows, i, lookups);
      result := result[row.stopId := Appended(result[row.stopId], arrival.value)];
    }
    assert rows[..|rows|] == rows;
    return Ok(result);
  }
}
