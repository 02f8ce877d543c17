# Location tracker core in Dafny

A model of the location-tracking service in `tracking_system.py`: devices
POST location reports, the server stamps each with its own clock, derives a
speed from the latest earlier report of the same connection type ("4G",
"WiFi", ...), and stores it; GET /map returns the stored locations filtered
by connection and timeframe, sorted by time, with per-type statistics;
POST /clear deletes everything.

- `wrappers.dfy` (`Wrappers`): `Option` and `Result`.
- `clock.dfy` (`Clock`): Python's naive `datetime` as far as the service
  uses it: validity, the instant in microseconds (from `toordinal`),
  `replace(hour=...)` and `replace(day=...)` with their `ValueError`, and
  the proof that instant order follows field order.
- `geo_math.dfy` (`GeoMath`): `calculate_speed`, with the haversine
  distance as a parameter of type `Haversine` (any non-negative function).
- `store.dfy` (`Store`): the `locations` collection as a `seq<Record>` in
  insertion order, with `find`, `sort`, `find_one`, `count_documents` and
  the accuracy sum as functions.
- `tracking.dfy` (`Tracking`): the class `Tracker`, whose `collection`
  field is the stored sequence, and the three handlers as methods.

Timestamps are integers (microseconds on Python's proleptic Gregorian time
line). The server clock is the parameter `now: DateTime`; it stays a
calendar value because GET /map decrements its hour or day field. The
`$gte` comparison of ISO strings is modelled as comparison of instants;
`Clock.InstantRespectsFieldOrder` shows that instant order follows the
field order of the strings.

The model follows the code in these cases:
- The timeframe values 'hour' and 'day' (tracking_system.py:80, 89-92)
  mean the last hour and the last day. Duration subtraction computes that.
  The code instead decrements a calendar field (tracking_system.py:90, 92),
  so GET /map fails with status 500 at hour 0 or on the first of a month.
  `Tracking.WindowFilter` and `Tracking.InWindow` state the duration
  version, and `GetMapData` is proved to agree with it whenever the
  decrement succeeds.
- `avg_accuracy` divides the accuracy sum over the filtered result by the
  whole-collection count, at least 1 (tracking_system.py:104-105, 109-110).
  It does not divide by the filtered count.
- A latitude or longitude that `float()` rejects raises inside the `try`.
  The answer is 500, not the 400 of the missing-fields check.
- An empty `connection` or `timeframe` parameter is falsy in Python and is
  treated as absent. Any timeframe other than 'hour', 'day' and 'all' uses
  `now` itself as the lower bound.

## Model

| member | source | states |
|---|---|---|
| `Clock.ReplaceHour` | tracking_system.py:90 | `replace(hour=h)` raises exactly when h is outside 0..23; otherwise it gives a valid date-time on the same date with hour h, moved by exactly (h − old hour) hours, so minute, second and microsecond are kept |
| `Clock.ReplaceDay` | tracking_system.py:92 | `replace(day=d)` raises exactly when d is not a day of the month; otherwise it gives a valid date-time at the same time of day with day d, moved by exactly (d − old day) days, so year and month are kept |
| `Clock.HourDecrement` | tracking_system.py:90 | decrementing the hour fails (ValueError) exactly at hour 0; otherwise the result is exactly one hour earlier |
| `Clock.DayDecrement` | tracking_system.py:92 | decrementing the day fails exactly on day 1; otherwise the result is exactly one day earlier |
| `Clock.InstantRespectsFieldOrder` | tracking_system.py:95 | a date-time that comes first field by field (the order of the timestamp strings `$gte` compares) is strictly earlier as an instant |
| `GeoMath.ElapsedHours` | tracking_system.py:22 | the elapsed time in hours is positive exactly when the second instant is later, zero exactly when they are equal, and times 3600·10⁶ gives the elapsed microseconds |
| `GeoMath.CalculateSpeed` | tracking_system.py:18-36 | speed is 0 when the second point is not later than the first; otherwise speed × elapsed hours equals the distance; speed is never negative |
| `GeoMath.SpeedScalesWithTime` | tracking_system.py:36 | for every k > 0, reaching the same place in 1/k of the elapsed time gives k times the speed |
| `Store.Matches` | tracking_system.py:83-98 | a record matches the query document when it has the document's connection (if any) and a timestamp at or after its lower bound (if any) |
| `Store.Select` | tracking_system.py:98 | `find(query)` returns each matching record exactly as often as it is stored, and no other record |
| `Store.InsertByTimestamp` | tracking_system.py:98 | inserting into a timestamp-sorted list keeps it sorted and adds exactly that record |
| `Store.SortByTimestamp` | tracking_system.py:98 | `.sort("timestamp", 1)` yields an ascending permutation of its input |
| `Store.MostRecent` | tracking_system.py:59-62 | `find_one` by connection with descending timestamp sort is absent exactly when no record of that connection is stored; otherwise it is a stored record of that connection with the greatest timestamp |
| `Store.AccuracySum` | tracking_system.py:104 | the sum of `accuracy` over the records of one connection type; it is 0 when no record of that type is present |
| `Store.Count` | tracking_system.py:103 | `count_documents` never exceeds the collection size |
| `Store.CountIsFindLength` | tracking_system.py:103 | `count_documents({"connection": c})` equals the number of records `find` returns for the same query |
| `Store.CountAppend` | tracking_system.py:68 | `insert_one` raises the count of the inserted record's connection by one and leaves every other count unchanged |
| `Store.CountZero` | tracking_system.py:103 | a connection's count is 0 exactly when no stored record has that connection |
| `Store.SelectAll` | tracking_system.py:83 | the empty query document returns the whole collection in stored order |
| `Store.SortKeepsAccuracySum` | tracking_system.py:104 | sorting the result does not change the accuracy sum of any connection type |
| `Store.AccuracySumNonNegative` | tracking_system.py:104 | with non-negative accuracies the accuracy sum is non-negative |
| `Store.NoRecordsNoAccuracy` | tracking_system.py:104-105 | when the whole collection has no record of a type, the accuracy sum of that type over any query result is 0 |
| `Tracking.HasRequiredFields` | tracking_system.py:46 | a report is accepted for processing only when `latitude`, `longitude` and `connection` are all present |
| `Tracking.Status` | tracking_system.py:47 | missing fields answer 400; every exception inside a handler answers 500 |
| `Tracking.AtLeastOne` | tracking_system.py:105 | the divisor `max(count, 1)` is at least 1, so the average never divides by zero |
| `Tracking.WindowFilter` | tracking_system.py:83-95 | the query document built from duration arithmetic matches a record exactly when it has the given connection and lies inside the timeframe's window |
| `Tracking.BuildQuery` | tracking_system.py:83-95 | building the query field by field fails exactly at hour 0 for 'hour' and on day 1 for 'day', with the matching ValueError; otherwise it yields the duration-based query document, so the field decrement agrees with "the last hour" and "the last day" |
| `Tracking.StatsOf` | tracking_system.py:101-111 | `count` is the whole-collection count of the type; `avg_accuracy` × max(count, 1) equals the accuracy sum over the returned list |
| `Tracking.Tracker.constructor` | tracking_system.py:16 | a freshly created, empty `locations` collection (the real collection is persistent and may already hold documents; a `Tracker` with any `collection` stands for that) |
| `Tracking.Tracker.ReceiveLocation` | tracking_system.py:42-73 | succeeds exactly when all three required keys are present and both coordinates convert; missing keys answer 400 and a failed conversion answers 500, both with no write; a success appends exactly one record stamped with `now`, with accuracy defaulting to 0; it has a speed exactly when a record of its connection was stored before, computed from the latest such record; only its own connection's count grows, by one |
| `Tracking.Tracker.GetMapData` | tracking_system.py:75-120 | fails with 500 exactly at hour 0 for 'hour' and on day 1 for 'day'; otherwise returns, in ascending timestamp order, exactly the stored records (with their multiplicities) that match the connection and lie in the timeframe's window; the stats hold exactly "4G" and "WiFi", each with its whole-collection count and an `avg_accuracy` equal to the accuracy sum over the returned records divided by max(whole-collection count, 1), not the mean over the returned records |
| `Tracking.Tracker.ClearData` | tracking_system.py:125 | the collection is empty afterwards |
| `Tracking.SecondReportGetsSpeed` | tracking_system.py:59-68 | on a new collection the first report of a connection gets no speed and the second gets the speed computed from the first |
| `Tracking.QueryAfterClear` | tracking_system.py:125 | after clearing, every GET /map that succeeds returns no location, and count 0 and average 0 for both types |

## Left out

- HTTP routing, CORS, `render_template` and JSON serialisation (tracking_system.py:1-16, 38-40, 70, 114-117). Handlers return a `Result`, and `Tracking.Status` gives the status code. The error message text is not modelled.
- MongoDB internals and storage failures. The collection is a sequence; a failing store (a 500 from any handler) is not modelled.
- The haversine trigonometry and float rounding (tracking_system.py:25-34). Distance is the parameter `haversine`, known only to be non-negative; real arithmetic is exact.
- `float()` parsing: a coordinate either converts to a real or is rejected. Which strings `float()` accepts is not modelled.
- `datetime.now()`: the clock is a parameter. `isoformat`/`fromisoformat` are the identity on instants.
- Non-finite coordinates (NaN, Infinity), which Python's JSON parser and `float()` accept (tracking_system.py:51). The first such report of a connection is stored; afterwards `math.sin` of it raises in `calculate_speed` (tracking_system.py:32), so every later report of that connection answers 500 with no write until /clear. `Field = Num(real) | Unparsable` has no non-finite values, so the model does not capture this.
- Request bodies that are not JSON objects, a non-numeric or null `accuracy` (which makes the sum in GET /map raise), and non-string connections.
- Store.MostRecent: among several latest records with equal timestamps it picks the earliest stored. The source leaves that choice to the database.
- Store.SortByTimestamp: records with equal timestamps keep their stored order. The source leaves that order to the database.
- The race between the `find_one` read and the `insert_one` write under concurrent requests. Each handler runs atomically here.
