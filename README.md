# ts-server core, modelled in Dafny

TrafficStuck's server collects the live vehicle positions of Lviv's public
transport and the city's static GTFS timetable ("easyway"). It then stores
derived documents in MongoDB. This project models the data processing at
the core of that server:

- **Static loaders.** `server/app/helpers/easyway_static.py` reads
  agency.txt, routes.txt, trips.txt, stops.txt and stop_times.txt into
  dictionaries. Route names, routes with their agency and route type,
  route-to-block sets, trip-to-route maps, and stops with their arrival
  lists (module `EasywayStatic`).
- **Live feed.** A decoded GTFS-realtime feed becomes one traffic record
  per vehicle. Speed is converted from m/s to km/h. The distance since the
  previous run comes from the odometer readings cached by that run
  (modules `TrafficFeed`, `UtilsEasyway`, `HelpersEasyway`).
- **Congestion per region.** Every record's point is tested against each
  region polygon of regions.json. A region's value is computed from the
  distances (`server/app/utils/easyway.py`) or from the speeds
  (`server/app/helpers/easyway.py`) of the vehicles it contains (module
  `Regions` and the two variants).
- **Static aggregates.** The number of distinct stops served by each route
  name. The number of routes per agency and per transport type, built as a
  `Counter`. The number of distinct blocks per route (module
  `StaticAggregates`).
- **Helpers.** `get_time_integer` (`TimeUtils`) and the quantile band
  filter `iqr` (`Outliers`).
- **The three tasks of `server/app/tasks.py`.** `collect_traffic`,
  `prepare_easyway_static` and `prepare_stops_times` are methods of the
  class `Tasks.TransitStore`. Its fields are the state the tasks change:
  - the Redis odometer cache;
  - the `traffic`, `traffic_congestion`, `transport` and `stops`
    collections;
  - the count of queued `prepare_stops_times` runs.

Python's own semantics are written out where the code relies on them, in
`Seqs`:
- a dictionary comprehension keeps the last value for a repeated key but
  the key's first position (`LastWins`, `Dedup`);
- `Counter` lists its keys in the order they first appear;
- `defaultdict(list)` creates a key at its first append.

`str.split` and `int` are written out in `Strings`. A decimal digit there is any character of the Unicode category Nd (Unicode 15.0), as for `\d` and `int` on a Python `str`. Pymongo's
`insert_many([])` raises `TypeError` before reaching the server, and it is
modelled as that error.

## Model

| member | source | states |
|---|---|---|
| EasywayStatic.RouteType | server/app/helpers/easyway_static.py:12-17 | The type is one of the four mapped categories or "Інші", and it is "Інші" exactly when the short name with its digit runs removed is not a key of the map |
| EasywayStatic.RouteTypeIgnoresDigits | server/app/helpers/easyway_static.py:43-44 | Inserting a run of decimal digits of any script anywhere in a short name never changes its route type |
| EasywayStatic.RouteTypeOfNonAsciiNumber | server/app/helpers/easyway_static.py:43-44 | "А" followed by ARABIC-INDIC DIGIT THREE is a bus route: non-ASCII digits are deleted too |
| EasywayStatic.RouteTypeOfNumberedRoute | server/app/helpers/easyway_static.py:12-17 | A mapped prefix followed by a route number ("А" + "12") gets the prefix's category |
| Strings.RemoveDigitsIgnoresDigitRun | server/app/helpers/easyway_static.py:43 | Removing every `\d+` match, where `\d` is any Unicode decimal digit, is blind to an extra digit run placed anywhere in the name |
| EasywayStatic.GetRoutesNamesSpec | server/app/helpers/easyway_static.py:27-31 | The route-name dictionary has exactly the file's route ids as keys, and the last row with a given id decides its short name |
| EasywayStatic.GetRoutes | server/app/helpers/easyway_static.py:34-56 | Succeeds exactly when every route's agency id is in agency.txt. Then there is one entry per row, in order, with the id, names, agency, agency name, route type and an empty trip list. Otherwise it fails with the KeyError of the first row whose agency is unknown |
| EasywayStatic.GetRoutesTrips | server/app/helpers/easyway_static.py:59-69 | The keys are the route ids that have trips, in order of first appearance, and no others. Each key maps to the set of block ids of its trips |
| EasywayStatic.BlocksOfExtend | server/app/helpers/easyway_static.py:63-67 | One more trips row adds its block id to its own route's set and to no other route's set |
| EasywayStatic.GetTrips | server/app/helpers/easyway_static.py:72-83 | The keys are exactly the trip ids of the file, and each maps to the route of the last row with that id |
| EasywayStatic.StopEntriesSpec | server/app/helpers/easyway_static.py:90-102 | The stop dictionary's keys are exactly the stop ids of the file, and the last row with an id gives its name, description and parsed coordinates |
| EasywayStatic.GetStops | server/app/helpers/easyway_static.py:86-104 | Succeeds exactly when every latitude and longitude parses. Then it holds one stop per distinct id, with no arrivals. Otherwise it fails with the error of the first row that does not parse |
| EasywayStatic.WithArrivalsAppend | server/app/helpers/easyway.py:168-180 | Attaching a list of arrivals and then appending one more gives the same stop as attaching the longer list at once, whether or not the stop already had a list |
| EasywayStatic.AttachStep | server/app/helpers/easyway.py:165-180 | After the loop body for row i, every stop holds exactly the arrivals of rows 0..i that name it, in file order |
| EasywayStatic.AttachArrivals | server/app/helpers/easyway.py:164-182 | Succeeds exactly when every stop_times row's stop, trip, route and (when required) time resolve. Then each stop has the arrivals of exactly its rows, in file order, and no stop is added or lost. Otherwise it fails with the error of the first row that does not resolve |
| TimeUtils.GetTimeInteger | server/app/utils/time.py:17-20 | Fails unless the string has exactly three ':'-separated fields, each of which `int` accepts |
| TimeUtils.TimeOfFields | server/app/utils/time.py:17-20 | "H:M:S" with digit fields reads back as 3600·H + 60·M + S |
| TimeUtils.TimeOfFieldsNonNegative | server/app/utils/time.py:17-20 | Digit fields always give a non-negative number of seconds |
| TimeUtils.TimeOfFieldsInjective | server/app/utils/time.py:17-20 | Two clock times whose minutes and seconds are below 60 and that give the same integer have the same fields |
| TimeUtils.ClockInjective | server/app/utils/time.py:20 | The seconds-of-day formula is one-to-one on minutes and seconds below 60, with hours unbounded |
| TimeUtils.TimePastMidnight | server/app/utils/time.py:17-20 | GTFS times past midnight are accepted: "25:10:00" is 90600 |
| Strings.ParseInt | server/app/utils/time.py:20 | Accepts exactly a non-empty run of decimal digits (of any script), optionally after one "+" or "-". An unsigned or "+" run reads as its decimal value and a "-" run as its negation. Everything else, the empty string and a lone sign included, is rejected |
| Outliers.BandFilter | server/app/helpers/outliers.py:11 | Keeps exactly the values between the two bounds, inclusive, and never lengthens the list |
| Outliers.Iqr | server/app/helpers/outliers.py:6-11 | Keeps exactly the values between the q1 and q2 quantiles of the input, inclusive |
| Outliers.IqrDefault | server/app/helpers/outliers.py:6 | With the default bounds, keeps exactly the values between the 0.25 and 0.75 quantiles |
| Outliers.BandFilterCounts | server/app/helpers/outliers.py:11 | Every value inside the band keeps all of its occurrences, and every value outside loses all of them |
| Outliers.BandFilterOrder | server/app/helpers/outliers.py:11 | The kept values appear in their original order |
| Outliers.BandFilterIdempotent | server/app/helpers/outliers.py:11 | Filtering a second time with the same bounds changes nothing |
| TrafficFeed.ParseEntities | server/app/utils/easyway.py:44-70 | The loop builds exactly one record per feed entity, in feed order, as the record function describes |
| TrafficFeed.TrafficOfEntities | server/app/utils/easyway.py:55-70 | Each record carries its entity's route, vehicle, position, bearing and odometer. Its speed is the entity's m/s speed times 3.6, and it carries the run's timestamp and date |
| TrafficFeed.TrafficDistance | server/app/utils/easyway.py:53-67 | The distance is the odometer minus the cached odometer of the same vehicle, and 0 for a vehicle not in the cache |
| TrafficFeed.TrafficLicensePlate | server/app/utils/easyway.py:48 | The plate has no '-' and keeps every other character, with the same multiplicity and in the same order |
| Strings.RemoveHyphensSpec | server/app/utils/easyway.py:48 | `replace("-", "")` removes every hyphen and keeps every other character, with the same multiplicity and in order |
| TrafficFeed.TrafficRouteType | server/app/utils/easyway.py:50-52 | A route known to routes.txt gets its short name and that name's route type. An unknown route gets "" and "Інші" |
| TrafficFeed.OdometerMapSpec | server/app/tasks.py:71 | The cached map holds exactly the run's vehicles, each with the odometer of its last record |
| TrafficFeed.DistanceAcrossRuns | server/app/tasks.py:53-72 | With the cache the previous run wrote, a vehicle's distance is its odometer minus its last odometer in that run, or 0 if it was absent from it |
| UtilsEasyway.ParseTraffic | server/app/utils/easyway.py:31-72 | An undecodable feed gives None. Otherwise there is one record per entity, stamped with the caller's time and no date |
| UtilsEasyway.CongestionPercentage | server/app/utils/easyway.py:86-93 | The value times the mean non-zero distance times MIN_DISTANCE is 100. With no non-zero distance (where Python divides by zero) the value is 0 |
| UtilsEasyway.CongestionClosedForm | server/app/utils/easyway.py:86-93 | The value equals 40 × (number of moving vehicles) / (total distance) |
| UtilsEasyway.CongestionIgnoresZeros | server/app/utils/easyway.py:88 | A vehicle that did not move, or that was first seen in this run, does not change its region's value |
| UtilsEasyway.CongestionExample | server/app/utils/easyway.py:86-93 | Distances 10, 0 and 20 give 8/3 |
| UtilsEasyway.ParseTrafficCongestion | server/app/utils/easyway.py:75-102 | The nested loops and the closing comprehension compute the region documents of the congestion specification |
| UtilsEasyway.CongestionOfSpec | server/app/utils/easyway.py:75-102 | There is one document per region that contains at least one vehicle and none for any other region, each region once. A document's value is computed from exactly the distances of the vehicles inside it, and every document has the first record's timestamp |
| Regions.GroupByRegion | server/app/utils/easyway.py:77-84 | The nested loops build the same grouping as the recursive definition, sample by sample and region by region |
| Regions.AppendSpec | server/app/utils/easyway.py:84 | `append` on a defaultdict extends that key's list by one value, creating the key if it is missing, and leaves every other key alone |
| Regions.AddSampleSpec | server/app/utils/easyway.py:80-84 | One vehicle's value lands in the list of every region that contains its point and in no other list |
| Regions.GroupSpec | server/app/utils/easyway.py:77-84 | Each region's list is the values of the vehicles inside its polygon, in feed order. A region is a key only if it received a value, and each key appears once |
| Regions.GroupKeys | server/app/utils/easyway.py:77-84 | A region is a key of the grouping exactly when some vehicle lies in it |
| Regions.RegionValuesEmpty | server/app/utils/easyway.py:82-84 | A region's list is non-empty exactly when some vehicle lies in it |
| Regions.NonZeroIgnoresZeros | server/app/utils/easyway.py:88 | Dropping zeros ignores any zero inserted into the list |
| UtilsEasyway.ParseStops | server/app/utils/easyway.py:164-183 | One stop per distinct stop id, taken from the last row with that id. Coordinates stay as read, and there are no arrivals |
| UtilsEasyway.GetStopsData | server/app/utils/easyway.py:243-266 | The stops of stops.txt, each with the arrivals of exactly its stop_times rows in file order and no integer times. It fails exactly when some row's stop, trip or route is unknown, with the KeyError of the first such row |
| UtilsEasyway.ArrivalsWithoutTimes | server/app/utils/easyway.py:250-264 | In this variant no arrival has an integer time, and a stop that no stop_times row names gets no arrivals |
| HelpersEasyway.ParseTraffic | server/app/helpers/easyway.py:33-74 | An undecodable feed gives None. Otherwise there is one record per entity, stamped with the caller's time and date |
| HelpersEasyway.RegionCongestion | server/app/helpers/easyway.py:90-102 | A region gets a value exactly when the speed baseline exists and its non-zero speeds have a non-zero sum. The value times the mean non-zero speed is 100 times the baseline |
| HelpersEasyway.ParseTrafficCongestion | server/app/helpers/easyway.py:77-104 | The loop with its `continue` emits exactly the documents of the speed-congestion specification |
| HelpersEasyway.EmittedFields | server/app/helpers/easyway.py:90-102 | Every emitted document names a grouped region, carries that region's value and has the caller's timestamp |
| HelpersEasyway.EmittedComplete | server/app/helpers/easyway.py:95-102 | Every grouped region that has a value gets a document |
| HelpersEasyway.EmittedOrder | server/app/helpers/easyway.py:90-102 | Documents follow the grouping's key order |
| HelpersEasyway.NoBaselineNoRecords | server/app/helpers/easyway.py:89-96 | Without a speed baseline no document is emitted |
| HelpersEasyway.SpeedCongestionSpec | server/app/helpers/easyway.py:77-104 | A region has a document exactly when its vehicles' speeds give a value, and the document carries that value and the caller's timestamp |
| HelpersEasyway.GetStopsData | server/app/helpers/easyway.py:158-182 | Any coordinate that does not parse is an error. Otherwise the call succeeds exactly when every stop_times row resolves, and each stop gets the arrivals of exactly its rows, in order |
| HelpersEasyway.ArrivalTimeIntegers | server/app/helpers/easyway.py:176-180 | In this variant every arrival carries the integer value of its own arrival time |
| StaticAggregates.BlockRoutes | server/app/utils/easyway.py:199-201 | Every block id of a listed route is a key, no other key is, and each block maps to a route whose set contains it |
| StaticAggregates.TripPrefixSpec | server/app/utils/easyway.py:205 | `split("_")[0]` is the part before the first underscore, or the whole id when there is none |
| StaticAggregates.CountAdd | server/app/utils/easyway.py:212-216 | Adding a new (route name, stop) pair raises that name's count by one and leaves every other count unchanged |
| StaticAggregates.CountIsStops | server/app/utils/easyway.py:203-216 | A route name's count of pairs is its number of distinct stops |
| StaticAggregates.GetStopsPerRoutes | server/app/utils/easyway.py:194-217 | Fails with the KeyError of the first stop_times row whose block or route is unknown. Otherwise it gives one entry per distinct route name, in route order, with that name's number of distinct stops |
| StaticAggregates.StopsPerRoutesNames | server/app/utils/easyway.py:212-216 | Each route short name appears once; a name appears exactly when some route of routes.txt has it; names follow the order of their first route in routes.txt, as `dict.fromkeys(routes_names.values())` orders them |
| StaticAggregates.BuildBlockRoutes | server/app/utils/easyway.py:199-201 | The loop builds the block-to-route dictionary, with later routes overwriting earlier ones |
| StaticAggregates.CollectPairs | server/app/utils/easyway.py:203-210 | The loop collects the (route name, stop id) pairs of all rows, or stops at the first row whose block or route is unknown |
| StaticAggregates.CountNames | server/app/utils/easyway.py:212-216 | Every route name gets a count, with 0 for a name without stops, and each count is that name's number of pairs |
| StaticAggregates.RouteCounts | server/app/utils/easyway.py:232-234 | Each route of the trips dictionary gets its short name and its number of distinct blocks, in key order. Otherwise the result is the KeyError of the first route missing from routes.txt |
| StaticAggregates.TransportCountsSpec | server/app/utils/easyway.py:220-240 | The per-agency and per-type counts each add up to the number of routes, list each agency or type once in order of first appearance, and count its occurrences. The per-route list is as RouteCounts states |
| Seqs.Dedup | server/app/utils/easyway.py:212 | `dict.fromkeys` keeps each key once and loses none |
| Seqs.LastWinsSpec | server/app/helpers/easyway_static.py:27-31 | In a dictionary comprehension each key takes the value of its last occurrence |
| Seqs.CounterKeys | server/app/utils/easyway.py:225-230 | A Counter's keys are the distinct elements in order of first appearance |
| Seqs.CounterCounts | server/app/utils/easyway.py:225-230 | A Counter maps each key to its number of occurrences |
| Seqs.CounterSum | server/app/utils/easyway.py:225-230 | A Counter's counts add up to the length of its input |
| Tasks.CollectedTrafficSpec | server/app/tasks.py:47-60 | The task has records to insert exactly when the download is non-empty and decodes to at least one entity. Then there is one record per entity, and a vehicle absent from the cache (or with a missing or unreadable cache) has distance 0 |
| Tasks.NameOrder | server/app/utils/easyway.py:105-108 | The key order of the route-name dictionary holds exactly its keys |
| Tasks.StaticDocsSpec | server/app/tasks.py:98-105 | Four documents in this order: stops_per_routes, transport_per_agencies, transport_per_type, transport_per_routes. The per-agency and per-type counts each add up to the number of routes, and stops_per_routes lists each route name once |
| Tasks.StopDocsSpec | server/app/tasks.py:127-128 | One document per distinct stop id, in file order. A stop that no stop_times row names has no arrivals |
| Tasks.TransitStore.constructor | server/app/tasks.py:22-27 | Collections and queue start empty, and the odometer cache starts as given |
| Tasks.TransitStore.CollectTraffic | server/app/tasks.py:42-74 | An empty or undecodable download, or a failed traffic insert, retries and changes nothing. Otherwise the traffic is inserted, and then: no congestion documents raise TypeError; a failed congestion insert retries; two successful inserts append the congestion documents and cache this run's odometers. Only a successful run replaces the cache |
| Tasks.TransitStore.PrepareEasywayStatic | server/app/tasks.py:81-115 | A failed download or unzip retries with nothing changed, and so does a failed drop. A failed insert leaves the collection empty. Success replaces `transport` with the four documents and queues `prepare_stops_times` once |
| Tasks.TransitStore.PrepareStopsTimes | server/app/tasks.py:122-135 | A KeyError from the loaders raises with nothing changed, and a failed drop retries with nothing changed. After a drop, no documents raise TypeError and a failed insert retries, both leaving `stops` empty. Otherwise `stops` becomes exactly the stop documents |

## Left out

- Protobuf decoding of the GTFS-realtime feed is not modelled: the decoder is a parameter (`FeedDecoder`), and `None` stands for `DecodeError`.
- Polygon containment (shapely) is a parameter applied to a region's bounds and the point (latitude, longitude).
- `numpy.quantile` is a parameter of `Outliers.Iqr`; its interpolation is not modelled.
- Floats are modelled as unbounded `real`: the model makes no claim about rounding, NaN or infinity.
- Clocks are parameters: `time.time()` and the date string. `HelpersEasyway.ParseTraffic` uses one date for all records, where the source calls `datetime.now()` for each record.
- Reading the CSV and JSON files is not modelled; rows are typed records. A missing column, a malformed file and a missing file are not modelled.
- Strings.ParseInt: does not model the surrounding whitespace or the digit-separating underscores that Python's `int` also accepts.
- Redis, pickle and the cache's expiry are reduced to three cache states: missing, unreadable and stored.
- Celery retry delays, maximum retry counts and the task queue itself are not modelled. A retry is the outcome `Retry`, and `prepare_stops_times.delay()` increments a counter.
- Each MongoDB call's success is a boolean input. Partial inserts and other pymongo errors are not modelled.
- `download_context` and `unzip` are not defined in server/app/utils/misc.py, so their results are inputs.
- `get_regions_bounds`, `parse_regions_bounds` and `get_time_range` are not part of this model: regions arrive as a list of named bounds.
- `HelpersEasyway.RegionCongestion` takes the speed baseline as an `Option<real>` input. `Traffic.get_routes_min_speed`, which `parse_traffic_congestion` calls, is not defined in server/app/helpers/traffic.py.
- The tasks use the `server/app/utils/easyway.py` variant. The task wiring of the `server/app/helpers/easyway.py` variant is not modelled.
- The loaders that `server/app/utils/easyway.py` repeats from `server/app/helpers/easyway_static.py` are modelled once. These are `parse_routes_names`, `parse_routes`, `parse_route_trips` and `parse_trips`.
- The MongoDB aggregation pipelines of the views, index creation and Google Drive export are outside the modelled core.
