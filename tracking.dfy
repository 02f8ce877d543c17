/**
 * The tracker's request handlers over the `locations` collection:
 * POST /location (`receive_location`), GET /map (`get_map_data`) and
 * POST /clear (`clear_data`). The clock and the distance formula are
 * parameters; HTTP and JSON encoding are not modelled.
 */
module Tracking {
  import opened Wrappers
  import opened Clock
  import opened Store
  import opened GeoMath

  /** A JSON value handed to `float()`: one it converts, or one it rejects. */
  datatype Field = Num(value: real) | Unparsable

  /** The JSON body of POST /location; None where the key is absent. */
  datatype Report = Report(
    latitude: Option<Field>,
    longitude: Option<Field>,
    connection: Option<string>,
    accuracy: Option<real>)

  /** Why a handler raised inside its `try` block. */
  datatype Cause = NotANumber | BadDate(e: ValueError)

  /** A handler's error answer: 400 for missing fields, 500 for a raised exception. */
  datatype Failure = MissingFields | Internal(cause: Cause)

  function Status(f: Failure): (code: int)
    ensures code == 400 <==> f.MissingFields?
    ensures code == 400 || code == 500
  {
    match f
    case MissingFields => 400
    case Internal(_) => 500
  }

  /** Per-connection statistics of GET /map. */
  datatype TypeStats = TypeStats(count: nat, avgAccuracy: real)

  /** The body of a successful GET /map. */
  datatype MapView = MapView(locations: seq<Record>, stats: map<string, TypeStats>)

  /** The connection types GET /map reports statistics for. */
  const StatTypes: set<string> := {"4G", "WiFi"}

  predicate HasRequiredFields(data: Report) {
    data.latitude.Some? && data.longitude.Some? && data.connection.Some?
  }

  /** A query parameter is used only when it is present and non-empty. */
  predicate Given(p: Option<string>) {
    p.Some? && p.value != ""
  }

  /**
   * Whether GET /map fails for this timeframe at time `now`: decrementing the
   * hour field at hour 0, or the day field on the first of a month.
   */
  predicate LimitFails(timeframe: Option<string>, now: DateTime) {
    (timeframe == Some("hour") && now.hour == 0) || (timeframe == Some("day") && now.day == 1)
  }

  /**
   * The records GET /map is meant to return, stated with durations rather
   * than calendar fields: the given connection only, and for timeframe
   * "hour" the last hour, for "day" the last day, for "all" everything, and
   * for any other value nothing earlier than `now`.
   */
  predicate InWindow(x: Record, connection: Option<string>, timeframe: Option<string>, now: DateTime)
    requires Valid(now)
  {
    && (Given(connection) ==> x.connection == connection.value)
    && (Given(timeframe) && timeframe.value != "all" ==>
          x.timestamp >= Instant(now) - (if timeframe.value == "hour" then MicrosPerHour
                                         else if timeframe.value == "day" then MicrosPerDay
                                         else 0))
  }

  /** `max(n, 1)`, the divisor of the average accuracy. */
  function AtLeastOne(n: nat): (d: real)
    ensures d >= 1.0
  {
    if n > 1 then n as real else 1.0
  }

  lemma DivideThenMultiply(a: real, d: real)
    requires d >= 1.0
    ensures a / d * d == a
  {
  }

  /** `st.avgAccuracy` is `sum` divided by `max(st.count, 1)`. */
  predicate IsAverage(st: TypeStats, sum: real) {
    st.avgAccuracy * AtLeastOne(st.count) == sum
  }

  /** The lower time bound of a timeframe, as a duration before `now`. */
  function WindowStart(timeframe: Option<string>, now: DateTime): Option<int>
    requires Valid(now)
  {
    if !Given(timeframe) || timeframe.value == "all" then None
    else if timeframe.value == "hour" then Some(Instant(now) - MicrosPerHour)
    else if timeframe.value == "day" then Some(Instant(now) - MicrosPerDay)
    else Some(Instant(now))
  }

  /** The query document for these parameters, with duration arithmetic. */
  function WindowFilter(connection: Option<string>, timeframe: Option<string>, now: DateTime): (f: Filter)
    requires Valid(now)
    ensures forall x :: Matches(x, f) <==> InWindow(x, connection, timeframe, now)
  {
    Filter(if Given(connection) then connection else None, WindowStart(timeframe, now))
  }

  /** The statistics of one connection type: its count over the whole collection, and the accuracy sum over the returned list divided by that count (at least 1). */
  function StatsOf(collection: seq<Record>, locations: seq<Record>, t: string): (st: TypeStats)
    ensures st.count == Count(collection, t)
    ensures IsAverage(st, AccuracySum(locations, t))
  {
    var n := Count(collection, t);
    var divisor := AtLeastOne(n);
    var sum := AccuracySum(locations, t);
    DivideThenMultiply(sum, divisor);
    TypeStats(n, sum / divisor)
  }

  /**
   * The query document of GET /map, built field by field from the optional
   * connection and timeframe. Decrementing the hour or the day field of
   * `now` can raise, which fails the request.
   */
  method BuildQuery(connection: Option<string>, timeframe: Option<string>, now: DateTime)
    returns (r: Result<Filter, Failure>)
    requires Valid(now)
    ensures r.Err? <==> LimitFails(timeframe, now)
    ensures r.Err? ==>
      r.error == Internal(BadDate(if timeframe == Some("hour") then HourOutOfRange else DayOutOfRange))
    ensures r.Ok? ==> r.value == WindowFilter(connection, timeframe, now)
  {
    var query := MatchAll;
    if Given(connection) {
      query := query.(connection := connection);
    }
    if Given(timeframe) {
      var timeLimit := now;
      if timeframe.value == "hour" {
        HourDecrement(now);
        var replaced := ReplaceHour(timeLimit, timeLimit.hour - 1);
        if replaced.Err? {
          return Err(Internal(BadDate(replaced.error)));
        }
        timeLimit := replaced.value;
      } else if timeframe.value == "day" {
        DayDecrement(now);
        var replaced := ReplaceDay(timeLimit, timeLimit.day - 1);
        if replaced.Err? {
          return Err(Internal(BadDate(replaced.error)));
        }
        timeLimit := replaced.value;
      }
      if timeframe.value != "all" {
        query := query.(since := Some(Instant(timeLimit)));
      }
    }
    r := Ok(query);
  }

  class Tracker {
    /** The `locations` collection, in insertion order. */
    var collection: seq<Record>

    constructor ()
      ensures collection == []
    {
      collection := [];
    }

    /**
     * POST /location: validate, stamp with `now`, attach the speed from the
     * latest record of the same connection stored before this one, store.
     */
    method ReceiveLocation(data: Report, now: DateTime, haversine: Haversine)
      returns (r: Result<Record, Failure>)
      requires Valid(now)
      modifies this
      ensures r.Ok? <==> HasRequiredFields(data) && data.latitude.value.Num? && data.longitude.value.Num?
      ensures r.Err? ==> collection == old(collection)
      ensures r == Err(MissingFields) <==> !HasRequiredFields(data)
      ensures r == Err(Internal(NotANumber)) <==>
        HasRequiredFields(data) && (data.latitude.value.Unparsable? || data.longitude.value.Unparsable?)
      ensures r.Ok? ==> collection == old(collection) + [r.value]
      ensures r.Ok? ==>
        && r.value.latitude == data.latitude.value.value
        && r.value.longitude == data.longitude.value.value
        && r.value.connection == data.connection.value
        && r.value.timestamp == Instant(now)
        && r.value.accuracy == data.accuracy.GetOr(0.0)
      ensures r.Ok? ==>
        (r.value.speed.Some? <==> exists p :: p in old(collection) && p.connection == r.value.connection)
      ensures r.Ok? && r.value.speed.Some? ==>
        r.value.speed.value == CalculateSpeed(MostRecent(old(collection), r.value.connection).value, r.value, haversine)
      ensures r.Ok? ==> forall t :: Count(collection, t) == Count(old(collection), t) + (if t == r.value.connection then 1 else 0)
    {
      if !HasRequiredFields(data) {
        return Err(MissingFields);
      }
      if data.latitude.value.Unparsable? || data.longitude.value.Unparsable? {
        return Err(Internal(NotANumber));
      }
      var location := Record(
        data.latitude.value.value,
        data.longitude.value.value,
        data.connection.value,
        Instant(now),
        data.accuracy.GetOr(0.0),
        None);
      var previous := MostRecent(collection, data.connection.value);
      if previous.Some? {
        location := location.(speed := Some(CalculateSpeed(previous.value, location, haversine)));
      }
      forall t {
        CountAppend(collection, location, t);
      }
      collection := collection + [location];
      r := Ok(location);
    }

    /**
     * GET /map: the records matching the optional connection and timeframe,
     * ascending by timestamp, with statistics for "4G" and "WiFi".
     */
    method GetMapData(connection: Option<string>, timeframe: Option<string>, now: DateTime)
      returns (r: Result<MapView, Failure>)
      requires Valid(now)
      ensures r.Err? <==> LimitFails(timeframe, now)
      ensures r.Err? ==>
        r.error == Internal(BadDate(if timeframe == Some("hour") then HourOutOfRange else DayOutOfRange))
      ensures r.Ok? ==> SortedByTimestamp(r.value.locations)
      ensures r.Ok? ==> forall x ::
        multiset(r.value.locations)[x] == if InWindow(x, connection, timeframe, now) then multiset(collection)[x] else 0
      ensures r.Ok? ==> r.value.stats.Keys == StatTypes
      ensures r.Ok? ==> forall t :: t in r.value.stats ==>
        && r.value.stats[t].count == Count(collection, t)
        && IsAverage(r.value.stats[t], AccuracySum(r.value.locations, t))
    {
      var built := BuildQuery(connection, timeframe, now);
      if built.Err? {
        return Err(built.error);
      }
      var query := built.value;
      var locations := SortByTimestamp(Select(collection, query));
      var fourG, wifi := StatsOf(collection, locations, "4G"), StatsOf(collection, locations, "WiFi");
      var stats := map["4G" := fourG, "WiFi" := wifi];
      assert forall t :: t in stats ==> stats[t] == StatsOf(collection, locations, t);
      r := Ok(MapView(locations, stats));
    }

    /** POST /clear: `delete_many({})`. */
    method ClearData()
      modifies this
      ensures collection == []
    {
      collection := [];
    }
  }

  /**
   * The first report of a connection is stored without a speed; the second
   * one is stored with the speed from the first.
   */
  method SecondReportGetsSpeed(first: Report, second: Report, t1: DateTime, t2: DateTime, haversine: Haversine)
    returns (r1: Result<Record, Failure>, r2: Result<Record, Failure>)
    requires Valid(t1) && Valid(t2)
    requires HasRequiredFields(first) && first.latitude.value.Num? && first.longitude.value.Num?
    requires HasRequiredFields(second) && second.latitude.value.Num? && second.longitude.value.Num?
    requires first.connection == second.connection
    ensures r1.Ok? && r1.value.speed == None
    ensures r2.Ok? && r2.value.speed == Some(CalculateSpeed(r1.value, r2.value, haversine))
  {
    var tracker := new Tracker();
    r1 := tracker.ReceiveLocation(first, t1, haversine);
    r2 := tracker.ReceiveLocation(second, t2, haversine);
  }

  /**
   * After POST /clear every GET /map that succeeds returns no location and
   * zero counts and averages for both connection types.
   */
  method QueryAfterClear(tracker: Tracker, connection: Option<string>, timeframe: Option<string>, now: DateTime)
    returns (r: Result<MapView, Failure>)
    requires Valid(now)
    modifies tracker
    ensures tracker.collection == []
    ensures r.Err? <==> LimitFails(timeframe, now)
    ensures r.Ok? ==> r.value.locations == []
    ensures r.Ok? ==> forall t :: t in r.value.stats ==> r.value.stats[t] == TypeStats(0, 0.0)
  {
    tracker.ClearData();
    r := tracker.GetMapData(connection, timeframe, now);
    if r.Ok? {
      assert forall x :: multiset(r.value.locations)[x] == 0;
      assert |multiset(r.value.locations)| == 0;
    }
  }
}
