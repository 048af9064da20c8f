/** Building one record from an observation (`createDataEntry`) and the path
    length it carries. The great-circle distance of Leaflet's `distanceTo` is a
    parameter: a function giving metres between two positions. */
module Distance {
  import opened TrajectoryTypes

  /** JavaScript's `Math.round`: the nearest integer, halves rounded upwards. */
  function Round(y: real): (r: int)
    ensures r as real - 0.5 <= y < r as real + 0.5
  {
    (y + 0.5).Floor
  }

  /** `createDataEntry`: a record for the point `entry` at `index`, whose
      predecessor on the path (if any) is `previous`. The step is rounded to
      1e-5 km before it is added, and the running total to 0.1 km after. */
  function CreateDataEntry(
    id: SeriesId, entry: Observation, previous: Option<Record>, index: nat,
    distanceTo: (LatLng, LatLng) -> real): Record
  {
    var dist :=
      match previous
      case None => 0.0
      case Some(p) =>
        var newdist := distanceTo(entry.position, p.position);
        p.dist + Round(newdist / 1000.0 * 100000.0) as real / 100000.0;
    Record(
      tick := index,
      dist := Round(dist * 10.0) as real / 10.0,
      timestamp := entry.timestamp,
      value := entry.value,
      position := entry.position,
      columns := map[id := entry.value])
  }

  /** What one step of `metres` adds to the stored total, in tenths of a
      kilometre: the step rounded to 1e-5 km, then the sum rounded to 0.1 km. */
  function StepTenths(metres: real): int
  {
    (Round(metres / 1000.0 * 100000.0) + 5000) / 10000
  }

  /** The record of point `i` of `points` when every point from 0 on is passed
      through `createDataEntry` with its predecessor as `previous`. */
  function EntryAt(id: SeriesId, points: seq<Observation>, i: nat, distanceTo: (LatLng, LatLng) -> real): Record
    requires i < |points|
  {
    CreateDataEntry(id, points[i], if i == 0 then None else Some(EntryAt(id, points, i - 1, distanceTo)), i, distanceTo)
  }

  /** The stored distance of point `i` in tenths of a kilometre, as an integer. */
  function Tenths(points: seq<Observation>, i: nat, distanceTo: (LatLng, LatLng) -> real): int
    requires i < |points|
  {
    if i == 0 then 0
    else Tenths(points, i - 1, distanceTo) + StepTenths(distanceTo(points[i].position, points[i - 1].position))
  }

  /** Rounding an integer number of tenths plus a step of `s` units of 1e-5 km. */
  lemma RoundTenths(t: int, s: int)
    ensures Round((t as real / 10.0 + s as real / 100000.0) * 10.0) == t + (s + 5000) / 10000
  {
    var q, m := (s + 5000) / 10000, (s + 5000) % 10000;
    assert s + 5000 == 10000 * q + m && 0 <= m < 10000;
    var y := (t as real / 10.0 + s as real / 100000.0) * 10.0 + 0.5;
    assert y == (t + q) as real + m as real / 10000.0;
    assert (t + q) as real <= y < (t + q + 1) as real;
  }

  /** A record built after a record whose distance is `t` tenths of a kilometre
      lies `StepTenths` further along, at an exact multiple of 0.1 km; the first
      record lies at 0. The tick, timestamp, value and column are the point's. */
  lemma CreateDataEntryDist(
    id: SeriesId, entry: Observation, previous: Option<Record>, index: nat,
    distanceTo: (LatLng, LatLng) -> real, t: int)
    requires previous.Some? ==> previous.value.dist == t as real / 10.0
    ensures var r := CreateDataEntry(id, entry, previous, index, distanceTo);
      && r.dist == (if previous.None? then 0.0
                    else (t + StepTenths(distanceTo(entry.position, previous.value.position))) as real / 10.0)
      && r.tick == index && r.timestamp == entry.timestamp && r.value == entry.value
      && r.position == entry.position && r.columns == map[id := entry.value]
  {
    if previous.Some? {
      var s := Round(distanceTo(entry.position, previous.value.position) / 1000.0 * 100000.0);
      RoundTenths(t, s);
    } else {
      assert Round(0.0 * 10.0) == 0;
    }
  }

  /** The record of point `i` has tick `i` and distance `Tenths(i)` tenths of a
      kilometre; the first point's distance is 0. */
  lemma {:induction false} EntryAtDist(id: SeriesId, points: seq<Observation>, i: nat, distanceTo: (LatLng, LatLng) -> real)
    requires i < |points|
    ensures EntryAt(id, points, i, distanceTo).dist == Tenths(points, i, distanceTo) as real / 10.0
    ensures EntryAt(id, points, i, distanceTo).tick == i
    ensures i == 0 ==> EntryAt(id, points, i, distanceTo).dist == 0.0
  {
    if i == 0 {
      CreateDataEntryDist(id, points[0], None, 0, distanceTo, 0);
    } else {
      EntryAtDist(id, points, i - 1, distanceTo);
      CreateDataEntryDist(id, points[i], Some(EntryAt(id, points, i - 1, distanceTo)), i, distanceTo,
                          Tenths(points, i - 1, distanceTo));
    }
  }

  /** A step of non-negative length adds nothing exactly when it is shorter than
      49.995 m (the step is rounded to whole centimetres, then to 100 m). */
  lemma ShortStepAddsNothing(metres: real)
    requires metres >= 0.0
    ensures StepTenths(metres) >= 0
    ensures StepTenths(metres) == 0 <==> metres < 49.995
  {
    var s := Round(metres / 1000.0 * 100000.0);
    assert s >= 0;
    if metres < 49.995 {
      assert s < 5000;
    } else {
      assert s >= 5000;
    }
  }

  /** The two roundings compound: a step of 149.996 m adds 0.2 km, although
      149.996 m rounded once to 0.1 km is 0.1 km. */
  lemma DoubleRounding()
    ensures StepTenths(149.996) == 2
    ensures Round(149.996 / 100.0) == 1
  {
    assert Round(149.996 / 1000.0 * 100000.0) == 15000;
  }

  /** With non-negative step lengths the distance never decreases along the path. */
  lemma {:induction false} TenthsMonotone(points: seq<Observation>, i: nat, j: nat, distanceTo: (LatLng, LatLng) -> real)
    requires i <= j < |points|
    requires forall a, b :: distanceTo(a, b) >= 0.0
    ensures 0 <= Tenths(points, i, distanceTo) <= Tenths(points, j, distanceTo)
  {
    if j == 0 {
    } else if i == j {
      TenthsMonotone(points, 0, j, distanceTo);
    } else {
      TenthsMonotone(points, i, j - 1, distanceTo);
      ShortStepAddsNothing(distanceTo(points[j].position, points[j - 1].position));
    }
  }

  /** A path made only of steps shorter than 49.995 m stays at distance 0,
      however long it is in total. */
  lemma {:induction false} ShortStepsStayAtZero(points: seq<Observation>, i: nat, distanceTo: (LatLng, LatLng) -> real)
    requires i < |points|
    requires forall k :: 0 < k < |points| ==>
      0.0 <= distanceTo(points[k].position, points[k - 1].position) < 49.995
    ensures Tenths(points, i, distanceTo) == 0
  {
    if i > 0 {
      ShortStepsStayAtZero(points, i - 1, distanceTo);
      ShortStepAddsNothing(distanceTo(points[i].position, points[i - 1].position));
    }
  }
}
