/**
 * The `locations` collection, seen as a sequence of stored records in
 * insertion order, with the collection operations the tracker calls:
 * `find` with a query document, `sort` on `timestamp`, `find_one` of the
 * latest record of a connection, `count_documents` on `connection`, and the
 * accuracy sum taken over a result list.
 */
module Store {
  import opened Wrappers

  /**
   * One stored location. `timestamp` is the server's clock when the report
   * was accepted, in microseconds; `speed` is present only when a record of
   * the same connection was already stored.
   */
  datatype Record = Record(
    latitude: real,
    longitude: real,
    connection: string,
    timestamp: int,
    accuracy: real,
    speed: Option<real>)

  /**
   * A query document: `{"connection": c}` when `connection` is present and
   * `{"timestamp": {"$gte": t}}` when `since` is present.
   */
  datatype Filter = Filter(connection: Option<string>, since: Option<int>)

  const MatchAll := Filter(None, None)

  predicate Matches(x: Record, f: Filter) {
    && (f.connection.Some? ==> x.connection == f.connection.value)
    && (f.since.Some? ==> x.timestamp >= f.since.value)
  }

  /** `find(f)`: every matching record, as often as it is stored, and no other. */
  function Select(s: seq<Record>, f: Filter): (r: seq<Record>)
    ensures forall x :: multiset(r)[x] == if Matches(x, f) then multiset(s)[x] else 0
    ensures |r| <= |s|
  {
    if s == [] then []
    else
      assert s == [s[0]] + s[1..];
      (if Matches(s[0], f) then [s[0]] else []) + Select(s[1..], f)
  }

  predicate SortedByTimestamp(s: seq<Record>) {
    forall i, j :: 0 <= i < j < |s| ==> s[i].timestamp <= s[j].timestamp
  }

  /** No record of `s` is earlier than `t`. */
  predicate NoneBefore(t: int, s: seq<Record>) {
    forall y :: y in s ==> t <= y.timestamp
  }

  lemma PrependSorted(x: Record, s: seq<Record>)
    requires SortedByTimestamp(s) && NoneBefore(x.timestamp, s)
    ensures SortedByTimestamp([x] + s)
  {
    forall i, j | 0 <= i < j < |[x] + s|
      ensures ([x] + s)[i].timestamp <= ([x] + s)[j].timestamp
    {
      if i > 0 {
        assert ([x] + s)[i] == s[i - 1] && ([x] + s)[j] == s[j - 1];
      } else {
        assert ([x] + s)[j] in s;
      }
    }
  }

  /** Places `x` before the first record of `s` that is not earlier than it. */
  function InsertByTimestamp(x: Record, s: seq<Record>): (r: seq<Record>)
    requires SortedByTimestamp(s)
    ensures SortedByTimestamp(r)
    ensures multiset(r) == multiset(s) + multiset{x}
  {
    if s == [] || x.timestamp <= s[0].timestamp then
      assert NoneBefore(x.timestamp, s) by {
        forall y | y in s ensures x.timestamp <= y.timestamp {
          var k :| 0 <= k < |s| && s[k] == y;
          assert s[0].timestamp <= s[k].timestamp;
        }
      }
      PrependSorted(x, s);
      [x] + s
    else
      var rest := InsertByTimestamp(x, s[1..]);
      assert s == [s[0]] + s[1..];
      assert NoneBefore(s[0].timestamp, rest) by {
        forall y | y in rest ensures s[0].timestamp <= y.timestamp {
          assert y in multiset(rest);
          assert y == x || y in multiset(s[1..]);
          if y != x {
            var k :| 0 <= k < |s[1..]| && s[1..][k] == y;
            assert s[0].timestamp <= s[k + 1].timestamp;
          }
        }
      }
      PrependSorted(s[0], rest);
      [s[0]] + rest
  }

  /** `.sort("timestamp", 1)`: ascending by timestamp, the same records. */
  function SortByTimestamp(s: seq<Record>): (r: seq<Record>)
    ensures SortedByTimestamp(r)
    ensures multiset(r) == multiset(s)
  {
    if s == [] then []
    else
      assert s == [s[0]] + s[1..];
      InsertByTimestamp(s[0], SortByTimestamp(s[1..]))
  }

  /**
   * `find_one({"connection": c}, sort=[("timestamp", -1)])`: a record of
   * connection `c` with the greatest timestamp, or None when there is none.
   * Among records with equal timestamps the earliest stored is returned.
   */
  function MostRecent(s: seq<Record>, c: string): (r: Option<Record>)
    ensures r.None? <==> forall x :: x in s ==> x.connection != c
    ensures r.Some? ==> r.value in s && r.value.connection == c
    ensures r.Some? ==> forall x :: x in s && x.connection == c ==> x.timestamp <= r.value.timestamp
  {
    if s == [] then None
    else
      var rest := MostRecent(s[1..], c);
      if s[0].connection != c then rest
      else if rest.Some? && rest.value.timestamp > s[0].timestamp then rest
      else Some(s[0])
  }

  /** `count_documents({"connection": c})`. */
  function Count(s: seq<Record>, c: string): (n: nat)
    ensures n <= |s|
  {
    if s == [] then 0
    else (if s[0].connection == c then 1 else 0) + Count(s[1..], c)
  }

  /** The sum of `accuracy` over the records of `s` whose connection is `c`. */
  function AccuracySum(s: seq<Record>, c: string): (sum: real)
    ensures (forall x :: x in s ==> x.connection != c) ==> sum == 0.0
  {
    if s == [] then 0.0
    else (if s[0].connection == c then s[0].accuracy else 0.0) + AccuracySum(s[1..], c)
  }

  /** `count_documents(q)` is the number of records `find(q)` returns. */
  lemma {:induction false} CountIsFindLength(s: seq<Record>, c: string)
    ensures Count(s, c) == |Select(s, Filter(Some(c), None))|
  {
    if s != [] {
      CountIsFindLength(s[1..], c);
    }
  }

  /** Storing one more record raises the count of its own connection by one and no other. */
  lemma {:induction false} CountAppend(s: seq<Record>, x: Record, c: string)
    ensures Count(s + [x], c) == Count(s, c) + (if x.connection == c then 1 else 0)
  {
    if s != [] {
      assert (s + [x])[1..] == s[1..] + [x];
      CountAppend(s[1..], x, c);
    }
  }

  /** A connection has count zero exactly when no stored record carries it. */
  lemma {:induction false} CountZero(s: seq<Record>, c: string)
    ensures Count(s, c) == 0 <==> forall x :: x in s ==> x.connection != c
  {
    if s != [] {
      CountZero(s[1..], c);
      assert forall x :: x in s <==> x == s[0] || x in s[1..];
    }
  }

  /** The empty query document matches every stored record, in stored order. */
  lemma {:induction false} SelectAll(s: seq<Record>)
    ensures Select(s, MatchAll) == s
  {
    if s != [] {
      SelectAll(s[1..]);
      calc {
        Select(s, MatchAll);
        [s[0]] + Select(s[1..], MatchAll);
        [s[0]] + s[1..];
        s;
      }
    }
  }

  lemma {:induction false} InsertKeepsAccuracySum(x: Record, s: seq<Record>, c: string)
    requires SortedByTimestamp(s)
    ensures AccuracySum(InsertByTimestamp(x, s), c) == AccuracySum([x] + s, c)
  {
    if s != [] && x.timestamp > s[0].timestamp {
      InsertKeepsAccuracySum(x, s[1..], c);
      assert ([x] + s)[1..] == s;
      assert ([x] + s[1..])[1..] == s[1..];
    }
  }

  /** Sorting the result list does not change any connection's accuracy sum. */
  lemma {:induction false} SortKeepsAccuracySum(s: seq<Record>, c: string)
    ensures AccuracySum(SortByTimestamp(s), c) == AccuracySum(s, c)
  {
    if s != [] {
      SortKeepsAccuracySum(s[1..], c);
      InsertKeepsAccuracySum(s[0], SortByTimestamp(s[1..]), c);
      assert ([s[0]] + SortByTimestamp(s[1..]))[1..] == SortByTimestamp(s[1..]);
    }
  }

  /** With non-negative accuracies the sum is non-negative. */
  lemma {:induction false} AccuracySumNonNegative(s: seq<Record>, c: string)
    requires forall x :: x in s ==> x.accuracy >= 0.0
    ensures AccuracySum(s, c) >= 0.0
  {
    if s != [] {
      AccuracySumNonNegative(s[1..], c);
    }
  }

  /**
   * When the whole collection holds no record of connection `c`, the
   * accuracy sum of `c` over any query result is zero.
   */
  lemma {:induction false} NoRecordsNoAccuracy(s: seq<Record>, f: Filter, c: string)
    requires Count(s, c) == 0
    ensures AccuracySum(Select(s, f), c) == 0.0
  {
    if s != [] {
      assert s[0].connection != c;
      NoRecordsNoAccuracy(s[1..], f, c);
      var r := Select(s, f);
      if Matches(s[0], f) {
        assert r == [s[0]] + Select(s[1..], f);
        assert r[0] == s[0] && r[1..] == Select(s[1..], f);
      } else {
        assert r == Select(s[1..], f);
      }
    }
  }
}
