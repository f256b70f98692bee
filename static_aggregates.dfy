/** `get_stops_per_routes` and `get_transport_counts`, the two aggregates
    `prepare_easyway_static` stores. The code is the same in
    server/app/utils/easyway.py and server/app/helpers/easyway.py; the
    tables they read are those EasywayStatic loads. Each aggregate is a
    list of (id, value) entries. */
module StaticAggregates {
  import opened Wrappers
  import opened Strings
  import Seqs
  import EasywayStatic

  /** `trips_map`: every block id of every route maps to that route,
      routes taken in key order, so a block id shared by two routes ends up
      with the later one. */
  function BlockRoutes(order: seq<string>, routesTrips: map<string, set<string>>): (m: map<string, string>)
    requires forall i :: 0 <= i < |order| ==> order[i] in routesTrips
    ensures forall b :: b in m <==> exists i :: 0 <= i < |order| && b in routesTrips[order[i]]
    ensures forall b :: b in m ==> m[b] in routesTrips && b in routesTrips[m[b]]
  {
    if order == [] then map[]
    else
      var init := order[..|order| - 1];
      var last := order[|order| - 1];
      assert forall i :: 0 <= i < |init| ==> init[i] == order[i];
      BlockRoutes(init, routesTrips) + map b | b in routesTrips[last] :: last
  }

  /** `trip_id.split("_")[0]`: the trip id up to its first underscore. */
  function TripPrefix(tripId: string): string {
    Split(tripId, '_')[0]
  }

  /** The prefix is everything before the first underscore, and a trip id
      without one is its own prefix. */
  lemma {:induction false} TripPrefixSpec(prefix: string, rest: string)
    requires '_' !in prefix
    ensures TripPrefix(prefix + ['_'] + rest) == prefix
    ensures TripPrefix(prefix) == prefix
  {
    var tail := ['_'] + rest;
    assert prefix + ['_'] + rest == prefix + tail;
    assert tail[1..] == rest;
    SplitPrefix(prefix, tail, '_');
    assert Split(tail, '_')[0] == "";
    assert prefix + "" == prefix;
    SplitPrefix(prefix, [], '_');
    assert prefix + [] == prefix;
  }

  /** The route short name a stop_times row counts for, or the KeyError
      its trip-id prefix or the prefix's route raises. */
  function RowRouteName(row: EasywayStatic.StopTimeRow, blockRoutes: map<string, string>,
                        routeNames: map<string, string>): Result<string>
  {
    var prefix := TripPrefix(row.tripId);
    if prefix !in blockRoutes then Err(KeyError(prefix))
    else if blockRoutes[prefix] !in routeNames then Err(KeyError(blockRoutes[prefix]))
    else Ok(routeNames[blockRoutes[prefix]])
  }

  /** The stop ids of the rows that count for route name `name`. */
  ghost function StopIdsOfRoute(rows: seq<EasywayStatic.StopTimeRow>, blockRoutes: map<string, string>,
                                routeNames: map<string, string>, name: string): set<string>
  {
    set j | 0 <= j < |rows| && RowRouteName(rows[j], blockRoutes, routeNames) == Ok(name) :: rows[j].stopId
  }

  /** The set `stops` after the first `n` rows. */
  ghost function RowPairs(rows: seq<EasywayStatic.StopTimeRow>, blockRoutes: map<string, string>,
                          routeNames: map<string, string>, n: int): set<(string, string)>
    requires 0 <= n <= |rows|
  {
    set j | 0 <= j < n && RowRouteName(rows[j], blockRoutes, routeNames).Ok? ::
      (RowRouteName(rows[j], blockRoutes, routeNames).value, rows[j].stopId)
  }

  function NameValues(nameOrder: seq<string>, routeNames: map<string, string>): (values: seq<string>)
    requires forall i :: 0 <= i < |nameOrder| ==> nameOrder[i] in routeNames
    ensures |values| == |nameOrder|
    ensures forall i :: 0 <= i < |nameOrder| ==> values[i] == routeNames[nameOrder[i]]
  {
    seq(|nameOrder|, i requires 0 <= i < |nameOrder| => routeNames[nameOrder[i]])
  }

  /** The keys of `dict.fromkeys(routes_names.values(), 0)`: every short
      name once, in order of first appearance. */
  function RouteNameKeys(nameOrder: seq<string>, routeNames: map<string, string>): (keys: seq<string>)
    requires forall i :: 0 <= i < |nameOrder| ==> nameOrder[i] in routeNames
    ensures Seqs.Distinct(keys)
  {
    Seqs.Dedup(NameValues(nameOrder, routeNames))
  }

  /** `nameOrder` is the key order of the dictionary `routeNames`. */
  ghost predicate IsKeyOrder(nameOrder: seq<string>, routeNames: map<string, string>) {
    forall id :: id in routeNames <==> id in nameOrder
  }

  /** The number of pairs of `s` whose first component is `name`. */
  ghost function Count(s: set<(string, string)>, name: string): nat {
    |set q | q in s && q.0 == name|
  }

  lemma {:induction false} CountAdd(s: set<(string, string)>, p: (string, string), name: string)
    requires p !in s
    ensures Count(s + {p}, name) == Count(s, name) + (if p.0 == name then 1 else 0)
  {
    var before := set q | q in s && q.0 == name;
    var after := set q | q in s + {p} && q.0 == name;
    if p.0 == name {
      assert after == before + {p};
    } else {
      assert after == before;
    }
  }

  /** Pairs that share their first component are as many as their second
      components. */
  lemma {:induction false} ProjectionSize(s: set<(string, string)>, name: string)
    requires forall q :: q in s ==> q.0 == name
    ensures |s| == |set q | q in s :: q.1|
    decreases |s|
  {
    if s != {} {
      var x :| x in s;
      var rest := s - {x};
      ProjectionSize(rest, name);
      var image := set q | q in rest :: q.1;
      assert (set q | q in s :: q.1) == image + {x.1};
      assert x.1 !in image;
    }
  }

  /** The count of a route name is its number of distinct stop ids. */
  lemma {:induction false} CountIsStops(rows: seq<EasywayStatic.StopTimeRow>, blockRoutes: map<string, string>,
                                        routeNames: map<string, string>, name: string)
    ensures Count(RowPairs(rows, blockRoutes, routeNames, |rows|), name)
      == |StopIdsOfRoute(rows, blockRoutes, routeNames, name)|
  {
    var pairs := RowPairs(rows, blockRoutes, routeNames, |rows|);
    var named := set q | q in pairs && q.0 == name;
    ProjectionSize(named, name);
    var ids := StopIdsOfRoute(rows, blockRoutes, routeNames, name);
    forall id | id in ids ensures id in set q | q in named :: q.1 {
      var j :| 0 <= j < |rows| && RowRouteName(rows[j], blockRoutes, routeNames) == Ok(name) && rows[j].stopId == id;
      assert (name, id) in named;
    }
    assert (set q | q in named :: q.1) == ids;
  }

  lemma {:induction false} RowPairsExtend(rows: seq<EasywayStatic.StopTimeRow>, blockRoutes: map<string, string>,
                                          routeNames: map<string, string>, n: int)
    requires 0 <= n < |rows|
    requires RowRouteName(rows[n], blockRoutes, routeNames).Ok?
    ensures RowPairs(rows, blockRoutes, routeNames, n + 1)
      == RowPairs(rows, blockRoutes, routeNames, n) + {(RowRouteName(rows[n], blockRoutes, routeNames).value, rows[n].stopId)}
  {
  }

  /** A counted name is always one of the keys. */
  lemma {:induction false} PairNamesAreKeys(rows: seq<EasywayStatic.StopTimeRow>, blockRoutes: map<string, string>,
                                            nameOrder: seq<string>, routeNames: map<string, string>)
    requires IsKeyOrder(nameOrder, routeNames)
    ensures forall q :: q in RowPairs(rows, blockRoutes, routeNames, |rows|) ==> q.0 in RouteNameKeys(nameOrder, routeNames)
  {
    var values := NameValues(nameOrder, routeNames);
    forall q | q in RowPairs(rows, blockRoutes, routeNames, |rows|) ensures q.0 in RouteNameKeys(nameOrder, routeNames) {
      var j :| 0 <= j < |rows| && RowRouteName(rows[j], blockRoutes, routeNames).Ok? &&
               q == (RowRouteName(rows[j], blockRoutes, routeNames).value, rows[j].stopId);
      var routeId := blockRoutes[TripPrefix(rows[j].tripId)];
      var i :| 0 <= i < |nameOrder| && nameOrder[i] == routeId;
      assert values[i] == q.0;
    }
  }

  /** The list `get_stops_per_routes` returns when every row resolves:
      each route short name with its number of distinct stop ids. */
  ghost function StopsPerRoutesOf(routesOrder: seq<string>, routesTrips: map<string, set<string>>,
                                  nameOrder: seq<string>, routeNames: map<string, string>,
                                  rows: seq<EasywayStatic.StopTimeRow>): seq<(string, nat)>
    requires forall i :: 0 <= i < |routesOrder| ==> routesOrder[i] in routesTrips
    requires forall i :: 0 <= i < |nameOrder| ==> nameOrder[i] in routeNames
  {
    var blockRoutes, keys := BlockRoutes(routesOrder, routesTrips), RouteNameKeys(nameOrder, routeNames);
    seq(|keys|, i requires 0 <= i < |keys| => (keys[i], |StopIdsOfRoute(rows, blockRoutes, routeNames, keys[i])|))
  }

  /** The list names every route short name once, in order of first
      appearance in routes.txt. */
  lemma {:induction false} StopsPerRoutesKeys(routesOrder: seq<string>, routesTrips: map<string, set<string>>,
                                               nameOrder: seq<string>, routeNames: map<string, string>,
                                               rows: seq<EasywayStatic.StopTimeRow>)
    requires forall i :: 0 <= i < |routesOrder| ==> routesOrder[i] in routesTrips
    requires forall i :: 0 <= i < |nameOrder| ==> nameOrder[i] in routeNames
    ensures Seqs.Keys(StopsPerRoutesOf(routesOrder, routesTrips, nameOrder, routeNames, rows))
              == Seqs.Dedup(NameValues(nameOrder, routeNames))
  {
    var keys := RouteNameKeys(nameOrder, routeNames);
    var counts := StopsPerRoutesOf(routesOrder, routesTrips, nameOrder, routeNames, rows);
    assert forall i :: 0 <= i < |keys| ==> counts[i].0 == keys[i];
  }

  /** What the names of the list are, without reference to how it is built:
      each name appears once; a name appears exactly when some route has it
      as its short name; and the names follow the order of their first
      route in routes.txt. */
  lemma {:induction false} StopsPerRoutesNames(routesOrder: seq<string>, routesTrips: map<string, set<string>>,
                                                nameOrder: seq<string>, routeNames: map<string, string>,
                                                rows: seq<EasywayStatic.StopTimeRow>)
    requires forall i :: 0 <= i < |routesOrder| ==> routesOrder[i] in routesTrips
    requires IsKeyOrder(nameOrder, routeNames)
    ensures var names := Seqs.Keys(StopsPerRoutesOf(routesOrder, routesTrips, nameOrder, routeNames, rows));
      && Seqs.Distinct(names)
      && (forall name :: name in names <==> exists id :: id in routeNames && routeNames[id] == name)
      && (forall i, j, b :: 0 <= i < j < |names| && 0 <= b < |nameOrder| && routeNames[nameOrder[b]] == names[j] ==>
            exists a :: 0 <= a < b && routeNames[nameOrder[a]] == names[i])
  {
    assert forall i :: 0 <= i < |nameOrder| ==> nameOrder[i] in routeNames by {
      forall i | 0 <= i < |nameOrder| ensures nameOrder[i] in routeNames {
        assert nameOrder[i] in nameOrder;
      }
    }
    StopsPerRoutesKeys(routesOrder, routesTrips, nameOrder, routeNames, rows);
    var values := NameValues(nameOrder, routeNames);
    var names := Seqs.Dedup(values);
    Seqs.DedupFirstOccurrence(values);
    forall name ensures name in names <==> exists id :: id in routeNames && routeNames[id] == name {
      if name in names {
        var k :| 0 <= k < |values| && values[k] == name;
        assert nameOrder[k] in routeNames;
      }
      if exists id :: id in routeNames && routeNames[id] == name {
        var id :| id in routeNames && routeNames[id] == name;
        var k :| 0 <= k < |nameOrder| && nameOrder[k] == id;
        assert values[k] == name;
      }
    }
  }

  /** `get_stops_per_routes`. `routesOrder` and `routesTrips` are
      `get_routes_trips`'s result, `nameOrder` and `routeNames` are
      `get_routes_names`'s result with its key order, `rows` is
      stop_times.txt. Every route short name gets one entry, in order of
      first appearance, whose value is the number of distinct stop ids on
      the rows whose trip prefix belongs to one of its routes (0 when there
      are none); or the KeyError of the first row whose prefix or route is
      unknown. */
  method GetStopsPerRoutes(routesOrder: seq<string>, routesTrips: map<string, set<string>>,
                           nameOrder: seq<string>, routeNames: map<string, string>,
                           rows: seq<EasywayStatic.StopTimeRow>)
    returns (r: Result<seq<(string, nat)>>)
    requires forall i :: 0 <= i < |routesOrder| ==> routesOrder[i] in routesTrips
    requires IsKeyOrder(nameOrder, routeNames)
    ensures var blockRoutes := BlockRoutes(routesOrder, routesTrips);
      r.Ok? <==> forall j :: 0 <= j < |rows| ==> RowRouteName(rows[j], blockRoutes, routeNames).Ok?
    ensures var blockRoutes := BlockRoutes(routesOrder, routesTrips);
      r.Err? ==>
        exists k :: 0 <= k < |rows| && RowRouteName(rows[k], blockRoutes, routeNames).Err? &&
                    (forall j :: 0 <= j < k ==> RowRouteName(rows[j], blockRoutes, routeNames).Ok?) &&
                    r.error == RowRouteName(rows[k], blockRoutes, routeNames).error
    ensures var blockRoutes, keys := BlockRoutes(routesOrder, routesTrips), RouteNameKeys(nameOrder, routeNames);
      r.Ok? ==>
        && |r.value| == |keys|
        && forall i :: 0 <= i < |keys| ==>
             r.value[i] == (keys[i], |StopIdsOfRoute(rows, blockRoutes, routeNames, keys[i])|)
    ensures r.Ok? ==> r.value == StopsPerRoutesOf(routesOrder, routesTrips, nameOrder, routeNames, rows)
  {
    var blockRoutes := BuildBlockRoutes(routesOrder, routesTrips);
    var pairs := CollectPairs(rows, blockRoutes, routeNames);
    if pairs.Err? {
      return Err(pairs.error);
    }
    var keys := RouteNameKeys(nameOrder, routeNames);
    PairNamesAreKeys(rows, blockRoutes, nameOrder, routeNames);
    var counts := CountNames(pairs.value, keys);
    forall i | 0 <= i < |keys|
      ensures counts[keys[i]] == |StopIdsOfRoute(rows, blockRoutes, routeNames, keys[i])|
    {
      CountIsStops(rows, blockRoutes, routeNames, keys[i]);
    }
    return Ok(seq(|keys|, i requires 0 <= i < |keys| => (keys[i], counts[keys[i]])));
  }

  /** The first loop of `get_stops_per_routes`, which fills `trips_map`. */
  method BuildBlockRoutes(routesOrder: seq<string>, routesTrips: map<string, set<string>>)
    returns (blockRoutes: map<string, string>)
    requires forall i :: 0 <= i < |routesOrder| ==> routesOrder[i] in routesTrips
    ensures blockRoutes == BlockRoutes(routesOrder, routesTrips)
  {
    blockRoutes := map[];
    for i := 0 to |routesOrder|
      invariant blockRoutes == BlockRoutes(routesOrder[..i], routesTrips)
    {
      assert routesOrder[..i + 1][..i] == routesOrder[..i];
      var route := routesOrder[i];
      blockRoutes := blockRoutes + map b | b in routesTrips[route] :: route;
    }
    assert routesOrder[..|routesOrder|] == routesOrder;
  }

  /** The second loop of `get_stops_per_routes`: the set of (route name,
      stop id) pairs of the rows, or the first row's KeyError. */
  method CollectPairs(rows: seq<EasywayStatic.StopTimeRow>, blockRoutes: map<string, string>,
                      routeNames: map<string, string>)
    returns (r: Result<set<(string, string)>>)
    ensures r.Ok? <==> forall j :: 0 <= j < |rows| ==> RowRouteName(rows[j], blockRoutes, routeNames).Ok?
    ensures r.Err? ==>
      exists k :: 0 <= k < |rows| && RowRouteName(rows[k], blockRoutes, routeNames).Err? &&
                  (forall j :: 0 <= j < k ==> RowRouteName(rows[j], blockRoutes, routeNames).Ok?) &&
                  r.error == RowRouteName(rows[k], blockRoutes, routeNames).error
    ensures r.Ok? ==> r.value == RowPairs(rows, blockRoutes, routeNames, |rows|)
  {
    var pairs: set<(string, string)> := {};
    for i := 0 to |rows|
      invariant forall j :: 0 <= j < i ==> RowRouteName(rows[j], blockRoutes, routeNames).Ok?
      invariant pairs == RowPairs(rows, blockRoutes, routeNames, i)
    {
      var row := rows[i];
      var prefix := Split(row.tripId, '_')[0];
      if prefix !in blockRoutes {
        return Err(KeyError(prefix));
      }
      var routeId := blockRoutes[prefix];
      if routeId !in routeNames {
        return Err(KeyError(routeId));
      }
      RowPairsExtend(rows, blockRoutes, routeNames, i);
      pairs := pairs + {(routeNames[routeId], row.stopId)};
    }
    return Ok(pairs);
  }

  /** The last loop of `get_stops_per_routes`: start every key at 0 and add
      one per pair to the pair's name. */
  method CountNames(pairs: set<(string, string)>, keys: seq<string>) returns (counts: map<string, nat>)
    requires forall q :: q in pairs ==> q.0 in keys
    ensures forall k :: k in counts <==> k in keys
    ensures forall k :: k in counts ==> counts[k] == Count(pairs, k)
  {
    counts := map k | k in keys :: 0;
    var remaining := pairs;
    while remaining != {}
      invariant remaining <= pairs
      invariant forall k :: k in counts <==> k in keys
      invariant forall k :: k in counts ==> counts[k] == Count(pairs - remaining, k)
      decreases |remaining|
    {
      var p :| p in remaining;
      forall k | k in counts ensures Count((pairs - remaining) + {p}, k) == counts[k] + (if p.0 == k then 1 else 0) {
        CountAdd(pairs - remaining, p, k);
      }
      assert pairs - (remaining - {p}) == (pairs - remaining) + {p};
      counts := counts[p.0 := counts[p.0] + 1];
      remaining := remaining - {p};
    }
    assert pairs - remaining == pairs;
  }

  /** The three transport aggregates. */
  datatype TransportCounts = TransportCounts(
    perAgency: seq<(string, nat)>, perType: seq<(string, nat)>, perRoute: seq<(string, nat)>)

  function AgencyNamesOf(routes: seq<EasywayStatic.Route>): (names: seq<string>)
    ensures |names| == |routes|
  {
    seq(|routes|, i requires 0 <= i < |routes| => routes[i].agencyName)
  }

  function RouteTypesOf(routes: seq<EasywayStatic.Route>): (types: seq<string>)
    ensures |types| == |routes|
  {
    seq(|routes|, i requires 0 <= i < |routes| => routes[i].routeType)
  }

  /** `{route["id"]: route["short_name"] for route in routes}`. */
  function ShortNames(routes: seq<EasywayStatic.Route>): map<string, string> {
    Seqs.LastWins(seq(|routes|, i requires 0 <= i < |routes| => (routes[i].id, routes[i].shortName)))
  }

  /** `routes_count`: for each route of `routes_trips`, in key order, its
      short name and its number of distinct block ids; or the KeyError of
      the first route the routes file does not name. */
  function RouteCounts(order: seq<string>, names: map<string, string>, routesTrips: map<string, set<string>>)
    : (r: Result<seq<(string, nat)>>)
    requires forall i :: 0 <= i < |order| ==> order[i] in routesTrips
    ensures r.Ok? <==> forall i :: 0 <= i < |order| ==> order[i] in names
    ensures r.Ok? ==> |r.value| == |order|
    ensures r.Ok? ==> forall i :: 0 <= i < |order| ==> r.value[i] == (names[order[i]], |routesTrips[order[i]]|)
    ensures r.Err? ==>
      exists k :: 0 <= k < |order| && order[k] !in names && (forall j :: 0 <= j < k ==> order[j] in names) &&
                  r.error == KeyError(order[k])
  {
    if order == [] then Ok([])
    else if order[0] !in names then Err(KeyError(order[0]))
    else
      match RouteCounts(order[1..], names, routesTrips)
      case Err(e) => Err(e)
      case Ok(rest) => Ok([(names[order[0]], |routesTrips[order[0]]|)] + rest)
  }

  /** `get_transport_counts`, given `get_routes`'s list and
      `get_routes_trips`'s result. */
  function GetTransportCounts(routes: seq<EasywayStatic.Route>, routesOrder: seq<string>,
                              routesTrips: map<string, set<string>>): Result<TransportCounts>
    requires forall i :: 0 <= i < |routesOrder| ==> routesOrder[i] in routesTrips
  {
    var perAgency := Seqs.Counter(AgencyNamesOf(routes));
    var perType := Seqs.Counter(RouteTypesOf(routes));
    var perRoute :- RouteCounts(routesOrder, ShortNames(routes), routesTrips);
    Ok(TransportCounts(perAgency, perType, perRoute))
  }

  /** The per-agency and per-type entries list each agency name and each
      category once, in order of first appearance, with its number of
      routes, so each list's values sum to the number of routes; the
      per-route entries are as `RouteCounts` states. */
  lemma {:induction false} TransportCountsSpec(routes: seq<EasywayStatic.Route>, routesOrder: seq<string>,
                                               routesTrips: map<string, set<string>>)
    requires forall i :: 0 <= i < |routesOrder| ==> routesOrder[i] in routesTrips
    ensures var r := GetTransportCounts(routes, routesOrder, routesTrips);
      r.Ok? <==> forall i :: 0 <= i < |routesOrder| ==> routesOrder[i] in ShortNames(routes)
    ensures var r := GetTransportCounts(routes, routesOrder, routesTrips);
      r.Ok? ==>
        && Seqs.SumCounts(r.value.perAgency) == |routes|
        && Seqs.SumCounts(r.value.perType) == |routes|
        && Seqs.Keys(r.value.perAgency) == Seqs.Dedup(AgencyNamesOf(routes))
        && Seqs.Keys(r.value.perType) == Seqs.Dedup(RouteTypesOf(routes))
        && (forall i :: 0 <= i < |r.value.perAgency| ==>
              r.value.perAgency[i].1 == multiset(AgencyNamesOf(routes))[r.value.perAgency[i].0])
        && (forall i :: 0 <= i < |r.value.perType| ==>
              r.value.perType[i].1 == multiset(RouteTypesOf(routes))[r.value.perType[i].0])
        && r.value.perRoute == RouteCounts(routesOrder, ShortNames(routes), routesTrips).value
  {
    Seqs.CounterSum(AgencyNamesOf(routes));
    Seqs.CounterSum(RouteTypesOf(routes));
    Seqs.CounterKeys(AgencyNamesOf(routes));
    Seqs.CounterKeys(RouteTypesOf(routes));
    Seqs.CounterCounts(AgencyNamesOf(routes));
    Seqs.CounterCounts(RouteTypesOf(routes));
  }
}
