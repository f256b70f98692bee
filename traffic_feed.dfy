/** The per-vehicle part of `parse_traffic` (server/app/utils/easyway.py and
    server/app/helpers/easyway.py) and the odometer map `collect_traffic`
    keeps between runs (server/app/tasks.py).

    A decoded GTFS Realtime feed is its sequence of vehicle entities; the
    decoding itself is not part of this model. */
module TrafficFeed {
  import opened Wrappers
  import opened Strings
  import EasywayStatic
  import Seqs

  /** The fields read from one `FeedEntity.vehicle`: its trip's route id,
      its vehicle descriptor, and its `Position` (speed in metres per
      second, odometer in metres). */
  datatype VehicleEntity = VehicleEntity(
    routeId: string, vehicleId: string, licensePlate: string,
    latitude: real, longitude: real, bearing: real, speed: real, odometer: real)

  /** One traffic document. `date` is present only in the variant that
      stamps each record with the current date. */
  datatype TrafficRecord = TrafficRecord(
    routeId: string, routeShortName: string, routeType: string,
    latitude: real, longitude: real, vehicleId: string, licensePlate: string,
    bearing: real, speed: real, odometer: real, distance: real,
    timestamp: int, date: Option<string>)

  /** Seconds per hour over metres per kilometre: m/s to km/h. */
  const KmhPerMs: real := 3.6

  /** The record built from one entity. `names` is the route-id to
      short-name map, `prev` the previous run's vehicle-id to odometer
      map. */
  function ToRecord(e: VehicleEntity, names: map<string, string>, prev: map<string, real>,
                    timestamp: int, date: Option<string>): TrafficRecord
  {
    var shortName := if e.routeId in names then names[e.routeId] else "";
    var prevOdometer := if e.vehicleId in prev then prev[e.vehicleId] else e.odometer;
    TrafficRecord(
      e.routeId, shortName, EasywayStatic.RouteType(shortName),
      e.latitude, e.longitude, e.vehicleId, RemoveHyphens(e.licensePlate),
      e.bearing, e.speed * KmhPerMs, e.odometer, e.odometer - prevOdometer,
      timestamp, date)
  }

  /** The traffic list of a decoded feed. */
  function TrafficOf(entities: seq<VehicleEntity>, names: map<string, string>, prev: map<string, real>,
                     timestamp: int, date: Option<string>): (traffic: seq<TrafficRecord>)
    ensures |traffic| == |entities|
  {
    seq(|entities|, i requires 0 <= i < |entities| => ToRecord(entities[i], names, prev, timestamp, date))
  }

  /** The loop of `parse_traffic`: one record appended per entity. */
  method ParseEntities(entities: seq<VehicleEntity>, names: map<string, string>, prev: map<string, real>,
                       timestamp: int, date: Option<string>) returns (traffic: seq<TrafficRecord>)
    ensures traffic == TrafficOf(entities, names, prev, timestamp, date)
  {
    traffic := [];
    for i := 0 to |entities|
      invariant traffic == TrafficOf(entities[..i], names, prev, timestamp, date)
    {
      traffic := traffic + [ToRecord(entities[i], names, prev, timestamp, date)];
    }
    assert entities[..|entities|] == entities;
  }

  /** One record per entity, in feed order, each carrying its entity's
      identity, position and odometer, the speed in km/h, and one shared
      timestamp and date. */
  lemma {:induction false} TrafficOfEntities(entities: seq<VehicleEntity>, names: map<string, string>,
                                             prev: map<string, real>, timestamp: int, date: Option<string>)
    ensures var traffic := TrafficOf(entities, names, prev, timestamp, date);
      |traffic| == |entities| &&
      forall i :: 0 <= i < |traffic| ==>
        && traffic[i].routeId == entities[i].routeId
        && traffic[i].vehicleId == entities[i].vehicleId
        && traffic[i].latitude == entities[i].latitude
        && traffic[i].longitude == entities[i].longitude
        && traffic[i].bearing == entities[i].bearing
        && traffic[i].odometer == entities[i].odometer
        && traffic[i].speed * 1000.0 == entities[i].speed * 3600.0
        && traffic[i].timestamp == timestamp
        && traffic[i].date == date
  {
  }

  /** The odometer delta is zero on a vehicle's first sighting and the
      distance driven since the previous run otherwise. */
  lemma {:induction false} TrafficDistance(entities: seq<VehicleEntity>, names: map<string, string>,
                                           prev: map<string, real>, timestamp: int, date: Option<string>)
    ensures var traffic := TrafficOf(entities, names, prev, timestamp, date);
      forall i :: 0 <= i < |traffic| ==>
        traffic[i].distance == if entities[i].vehicleId in prev
                               then entities[i].odometer - prev[entities[i].vehicleId]
                               else 0.0
  {
  }

  /** The stored plate is the feed's plate with its hyphens, and nothing
      else, removed. */
  lemma {:induction false} TrafficLicensePlate(entities: seq<VehicleEntity>, names: map<string, string>,
                                               prev: map<string, real>, timestamp: int, date: Option<string>,
                                               i: int)
    requires 0 <= i < |entities|
    ensures var plate := TrafficOf(entities, names, prev, timestamp, date)[i].licensePlate;
      && '-' !in plate
      && (forall c :: c != '-' ==> multiset(plate)[c] == multiset(entities[i].licensePlate)[c])
      && Seqs.IsSubsequence(plate, entities[i].licensePlate)
  {
    RemoveHyphensSpec(entities[i].licensePlate);
  }

  /** A route id missing from the routes file gives an empty short name and
      the catch-all category; a known one gives its short name and that
      name's category. */
  lemma {:induction false} TrafficRouteType(entities: seq<VehicleEntity>, names: map<string, string>,
                                            prev: map<string, real>, timestamp: int, date: Option<string>)
    ensures var traffic := TrafficOf(entities, names, prev, timestamp, date);
      forall i :: 0 <= i < |traffic| ==>
        if entities[i].routeId in names then
          traffic[i].routeShortName == names[entities[i].routeId] &&
          traffic[i].routeType == EasywayStatic.RouteType(names[entities[i].routeId])
        else
          traffic[i].routeShortName == "" && traffic[i].routeType == EasywayStatic.OtherRouteType
  {
    assert EasywayStatic.RouteType("") == EasywayStatic.OtherRouteType by {
      assert RemoveDigits("") == "";
    }
  }

  function OdometerPairs(traffic: seq<TrafficRecord>): (pairs: seq<(string, real)>)
    ensures |pairs| == |traffic|
    ensures forall i :: 0 <= i < |traffic| ==> pairs[i] == (traffic[i].vehicleId, traffic[i].odometer)
  {
    seq(|traffic|, i requires 0 <= i < |traffic| => (traffic[i].vehicleId, traffic[i].odometer))
  }

  /** `{x["trip_vehicle_id"]: x["trip_odometer"] for x in traffic}`. */
  function OdometerMap(traffic: seq<TrafficRecord>): map<string, real> {
    Seqs.LastWins(OdometerPairs(traffic))
  }

  /** The map holds exactly this run's vehicles, each with the odometer of
      its last record. */
  lemma {:induction false} OdometerMapSpec(traffic: seq<TrafficRecord>)
    ensures forall v :: v in OdometerMap(traffic) <==> exists i :: 0 <= i < |traffic| && traffic[i].vehicleId == v
    ensures forall i :: 0 <= i < |traffic| && (forall j :: i < j < |traffic| ==> traffic[j].vehicleId != traffic[i].vehicleId) ==>
              OdometerMap(traffic)[traffic[i].vehicleId] == traffic[i].odometer
  {
    var pairs := OdometerPairs(traffic);
    Seqs.LastWinsSpec(pairs);
    forall v | v in OdometerMap(traffic) ensures exists i :: 0 <= i < |traffic| && traffic[i].vehicleId == v {
      var i :| 0 <= i < |pairs| && pairs[i].0 == v;
    }
    forall i | 0 <= i < |traffic| && (forall j :: i < j < |traffic| ==> traffic[j].vehicleId != traffic[i].vehicleId)
      ensures OdometerMap(traffic)[traffic[i].vehicleId] == traffic[i].odometer
    {
      assert Seqs.LastOccurrence(pairs, i);
    }
  }

  /** Across two runs: a vehicle seen in the first run gets, in the second,
      the distance from its odometer at its last first-run sighting; any
      other vehicle gets zero. */
  lemma {:induction false} DistanceAcrossRuns(first: seq<TrafficRecord>, entities: seq<VehicleEntity>,
                                              names: map<string, string>, timestamp: int, date: Option<string>,
                                              i: int)
    requires 0 <= i < |entities|
    ensures var second := TrafficOf(entities, names, OdometerMap(first), timestamp, date);
      && ((forall j :: 0 <= j < |first| ==> first[j].vehicleId != entities[i].vehicleId) ==> second[i].distance == 0.0)
      && (forall j :: 0 <= j < |first| && first[j].vehicleId == entities[i].vehicleId &&
                      (forall k :: j < k < |first| ==> first[k].vehicleId != entities[i].vehicleId) ==>
            second[i].distance == entities[i].odometer - first[j].odometer)
  {
    OdometerMapSpec(first);
  }
}
