/**
 * Speed between two stored locations, in km/h. The great-circle distance is
 * the haversine formula on a sphere of radius 6371 km; its trigonometry is
 * not modelled, only that it yields a non-negative number of kilometres.
 */
module GeoMath {
  import opened Clock
  import opened Store

  /**
   * Great-circle distance in km from (lat1, lon1) to (lat2, lon2), all in
   * degrees. Any non-negative function stands for it.
   */
  type Haversine = f: (real, real, real, real) -> real
    | forall lat1, lon1, lat2, lon2 :: f(lat1, lon1, lat2, lon2) >= 0.0
    witness (lat1: real, lon1: real, lat2: real, lon2: real) => 0.0

  /** Time from `t1` to `t2` (microsecond instants) in hours. */
  function ElapsedHours(t1: int, t2: int): (hours: real)
    ensures hours > 0.0 <==> t1 < t2
    ensures hours == 0.0 <==> t1 == t2
    ensures hours * MicrosPerHour as real == (t2 - t1) as real
  {
    (t2 - t1) as real / MicrosPerHour as real
  }

  function Distance(p1: Record, p2: Record, haversine: Haversine): real {
    haversine(p1.latitude, p1.longitude, p2.latitude, p2.longitude)
  }

  /**
   * `calculate_speed(point1, point2)`: distance over elapsed hours, and 0
   * when `point2` is not later than `point1`.
   */
  function CalculateSpeed(p1: Record, p2: Record, haversine: Haversine): (kmh: real)
    ensures p2.timestamp <= p1.timestamp ==> kmh == 0.0
    ensures p1.timestamp < p2.timestamp ==>
      kmh * ElapsedHours(p1.timestamp, p2.timestamp) == Distance(p1, p2, haversine)
    ensures kmh >= 0.0
  {
    var hours := ElapsedHours(p1.timestamp, p2.timestamp);
    if hours > 0.0 then Distance(p1, p2, haversine) / hours else 0.0
  }

  /**
   * Reaching the same place from `p1` in 1/k of the elapsed time gives k
   * times the speed, for every k > 0.
   */
  lemma SpeedScalesWithTime(p1: Record, p2: Record, p3: Record, haversine: Haversine, k: real)
    requires k > 0.0
    requires p1.timestamp < p2.timestamp
    requires ElapsedHours(p1.timestamp, p2.timestamp) == k * ElapsedHours(p1.timestamp, p3.timestamp)
    requires p2.latitude == p3.latitude && p2.longitude == p3.longitude
    ensures CalculateSpeed(p1, p3, haversine) == k * CalculateSpeed(p1, p2, haversine)
  {
  }
}
