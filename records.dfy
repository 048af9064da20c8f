/** The record table (`baseValues`) as a value: what the primary pass of
    `processDataForId` builds, what a secondary pass writes into it, and what
    `processAllData` produces from all series. The methods of the graph class
    are proved to compute exactly these. */
module Records {
  import opened TrajectoryTypes
  import opened Distance
  import opened Axes

  /** Point `idx` lies in the selection window (every point does without one). */
  predicate InWindow(selection: Option<SelectionRange>, idx: int)
  {
    selection.None? || (selection.value.from <= idx <= selection.value.to)
  }

  /** A secondary pass writes point `idx` to position `idx - Shift(selection)`. */
  function Shift(selection: Option<SelectionRange>): int
  {
    if selection.Some? then selection.value.from else 0
  }

  /** The records the primary pass has appended after the first `k` points. */
  function PrimaryUpTo(id: SeriesId, points: seq<Observation>, selection: Option<SelectionRange>,
                       distanceTo: (LatLng, LatLng) -> real, k: nat): seq<Record>
    requires k <= |points|
  {
    if k == 0 then []
    else PrimaryUpTo(id, points, selection, distanceTo, k - 1)
         + (if InWindow(selection, k - 1) then [EntryAt(id, points, k - 1, distanceTo)] else [])
  }

  /** The records of a primary pass over all points of the series. */
  function Primary(id: SeriesId, points: seq<Observation>, selection: Option<SelectionRange>,
                   distanceTo: (LatLng, LatLng) -> real): seq<Record>
  {
    PrimaryUpTo(id, points, selection, distanceTo, |points|)
  }

  /** The first index the primary pass keeps. */
  function WindowStart(selection: Option<SelectionRange>): int
  {
    if selection.Some? && selection.value.from > 0 then selection.value.from else 0
  }

  /** The last index among the first `k` the primary pass keeps (if any). */
  function WindowEnd(selection: Option<SelectionRange>, k: nat): int
  {
    if selection.Some? && selection.value.to < k - 1 then selection.value.to else k - 1
  }

  /** The primary pass keeps one record per point of the window, in point order:
      record `p` is the record of point `WindowStart + p`, so its `tick` is that
      original index. */
  lemma {:induction false} PrimaryLayout(id: SeriesId, points: seq<Observation>, selection: Option<SelectionRange>,
                                         distanceTo: (LatLng, LatLng) -> real, k: nat)
    requires k <= |points|
    ensures var ps := PrimaryUpTo(id, points, selection, distanceTo, k);
      var count := WindowEnd(selection, k) - WindowStart(selection) + 1;
      && |ps| == (if count < 0 then 0 else count)
      && forall p :: 0 <= p < |ps| ==>
           WindowStart(selection) + p < |points| &&
           ps[p] == EntryAt(id, points, WindowStart(selection) + p, distanceTo)
  {
    if k > 0 {
      PrimaryLayout(id, points, selection, distanceTo, k - 1);
    }
  }

  /** The primary records are in the window and carry their own index as tick,
      and their distance is measured from the first point of the path, not from
      the first point of the window. */
  lemma PrimaryTicks(id: SeriesId, points: seq<Observation>, selection: Option<SelectionRange>,
                     distanceTo: (LatLng, LatLng) -> real)
    ensures var ps := Primary(id, points, selection, distanceTo);
      forall p :: 0 <= p < |ps| ==>
        && ps[p].tick == WindowStart(selection) + p < |points|
        && InWindow(selection, ps[p].tick)
        && ps[p].dist == Tenths(points, ps[p].tick, distanceTo) as real / 10.0
  {
    PrimaryLayout(id, points, selection, distanceTo, |points|);
    var ps := Primary(id, points, selection, distanceTo);
    forall p | 0 <= p < |ps|
      ensures && ps[p].tick == WindowStart(selection) + p < |points|
              && InWindow(selection, ps[p].tick)
              && ps[p].dist == Tenths(points, ps[p].tick, distanceTo) as real / 10.0
    {
      EntryAtDist(id, points, WindowStart(selection) + p, distanceTo);
    }
  }

  /** Setting column `id` of a record. */
  function Assign(r: Record, id: SeriesId, v: Option<real>): Record
  {
    r.(columns := r.columns[id := v])
  }

  /** Position `p` receives a point from a secondary pass over the first `k` points. */
  predicate Written(selection: Option<SelectionRange>, k: nat, p: int)
  {
    0 <= p + Shift(selection) < k && InWindow(selection, p + Shift(selection))
  }

  /** One more point adds at most its own position to the written ones. */
  lemma WrittenStep(selection: Option<SelectionRange>, k: nat)
    ensures forall p {:trigger Written(selection, k + 1, p)} :: Written(selection, k + 1, p) <==>
      Written(selection, k, p) || (p + Shift(selection) == k && InWindow(selection, k))
  {
  }

  /** The table after a secondary pass of series `id` over its first `k` points:
      position `p` holds, in column `id`, the value of point `p + Shift` if that
      point is in the window; every other position is as it was. */
  function MergedUpTo(base: seq<Record>, id: SeriesId, points: seq<Observation>,
                      selection: Option<SelectionRange>, k: nat): seq<Record>
    requires k <= |points|
  {
    seq(|base|, p requires 0 <= p < |base| =>
      if Written(selection, k, p) then Assign(base[p], id, points[p + Shift(selection)].value) else base[p])
  }

  function Merged(base: seq<Record>, id: SeriesId, points: seq<Observation>,
                  selection: Option<SelectionRange>): seq<Record>
  {
    MergedUpTo(base, id, points, selection, |points|)
  }

  /** `processDataForId` for a visible series: a primary pass on an empty
      table, a secondary pass otherwise. */
  function ProcessSeries(base: seq<Record>, id: SeriesId, points: seq<Observation>,
                         selection: Option<SelectionRange>, distanceTo: (LatLng, LatLng) -> real): seq<Record>
  {
    if |base| == 0 then Primary(id, points, selection, distanceTo) else Merged(base, id, points, selection)
  }

  /** A record without its value columns: the part only the primary pass sets. */
  function Strip(rs: seq<Record>): (s: seq<Record>)
    ensures |s| == |rs|
    ensures forall p :: 0 <= p < |rs| ==> s[p].columns == map[]
  {
    seq(|rs|, p requires 0 <= p < |rs| => rs[p].(columns := map[]))
  }

  /** A secondary pass keeps the number of records and each record's tick,
      distance, timestamp, value and position, and changes no column but `id`,
      which it sets exactly at the written positions. */
  lemma MergedKeeps(base: seq<Record>, id: SeriesId, points: seq<Observation>, selection: Option<SelectionRange>)
    ensures var m := Merged(base, id, points, selection);
      && |m| == |base|
      && Strip(m) == Strip(base)
      && (forall p, c :: 0 <= p < |m| && c != id ==>
            (c in m[p].columns <==> c in base[p].columns) &&
            (c in base[p].columns ==> m[p].columns[c] == base[p].columns[c]))
      && (forall p :: 0 <= p < |m| ==>
            if Written(selection, |points|, p)
            then id in m[p].columns && m[p].columns[id] == points[p + Shift(selection)].value
            else m[p] == base[p])
  {
  }

  /** Merging the same series again with the same points changes nothing:
      values are overwritten, not appended. */
  lemma MergedIdempotent(base: seq<Record>, id: SeriesId, points: seq<Observation>, selection: Option<SelectionRange>)
    ensures Merged(Merged(base, id, points, selection), id, points, selection) == Merged(base, id, points, selection)
  {
    var m := Merged(base, id, points, selection);
    var mm := Merged(m, id, points, selection);
    forall p | 0 <= p < |m|
      ensures mm[p] == m[p]
    {
      if Written(selection, |points|, p) {
        assert m[p].columns[id := points[p + Shift(selection)].value] == m[p].columns;
      }
    }
  }

  /** Secondary passes of two different series commute. */
  lemma MergedCommute(base: seq<Record>, id1: SeriesId, points1: seq<Observation>,
                      id2: SeriesId, points2: seq<Observation>, selection: Option<SelectionRange>)
    requires id1 != id2
    ensures Merged(Merged(base, id1, points1, selection), id2, points2, selection)
         == Merged(Merged(base, id2, points2, selection), id1, points1, selection)
  {
    var a := Merged(Merged(base, id1, points1, selection), id2, points2, selection);
    var b := Merged(Merged(base, id2, points2, selection), id1, points1, selection);
    forall p | 0 <= p < |base|
      ensures a[p] == b[p]
    {
      var c := base[p].columns;
      var s := Shift(selection);
      if Written(selection, |points1|, p) && Written(selection, |points2|, p) {
        assert c[id1 := points1[p + s].value][id2 := points2[p + s].value]
            == c[id2 := points2[p + s].value][id1 := points1[p + s].value];
      }
    }
  }

  /** `processDataForId` gets past its lookups without a `TypeError`: the series
      has options, and when it is visible its data is loaded. */
  predicate Processable(id: SeriesId, visible: map<SeriesId, bool>, data: map<SeriesId, seq<Observation>>)
  {
    id in visible && (visible[id] ==> id in data)
  }

  /** Every series listed is processable. */
  predicate Covers(ids: seq<SeriesId>, visible: map<SeriesId, bool>, data: map<SeriesId, seq<Observation>>)
  {
    forall i :: 0 <= i < |ids| ==> Processable(ids[i], visible, data)
  }

  /** How many series `processAllData` processes before `processDataForId`
      throws: all of them when none throws, otherwise the index of the first
      series that is not processable, every one before it being processable. */
  function ProcessedCount(ids: seq<SeriesId>, visible: map<SeriesId, bool>, data: map<SeriesId, seq<Observation>>): (k: nat)
    ensures k <= |ids| && Covers(ids[..k], visible, data)
    ensures k < |ids| ==> !Processable(ids[k], visible, data)
  {
    if |ids| == 0 || !Processable(ids[0], visible, data) then 0
    else
      var k := 1 + ProcessedCount(ids[1..], visible, data);
      assert forall i :: 1 <= i < k ==> ids[..k][i] == ids[1..][..k - 1][i - 1];
      k
  }

  /** `processAllData`: an empty table, then `processDataForId` for each series in turn. */
  function Rebuild(ids: seq<SeriesId>, visible: map<SeriesId, bool>, data: map<SeriesId, seq<Observation>>,
                   selection: Option<SelectionRange>, distanceTo: (LatLng, LatLng) -> real): seq<Record>
    requires Covers(ids, visible, data)
  {
    if |ids| == 0 then []
    else
      var n := |ids| - 1;
      assert forall i :: 0 <= i < n ==> ids[..n][i] == ids[i];
      var base := Rebuild(ids[..n], visible, data, selection, distanceTo);
      if visible[ids[n]] then ProcessSeries(base, ids[n], data[ids[n]], selection, distanceTo) else base
  }

  /** Series `id` would become the primary: it is visible and has a point in the window. */
  predicate PrimaryCandidate(id: SeriesId, visible: map<SeriesId, bool>, data: map<SeriesId, seq<Observation>>,
                             selection: Option<SelectionRange>, distanceTo: (LatLng, LatLng) -> real)
    requires Processable(id, visible, data)
  {
    visible[id] && |Primary(id, data[id], selection, distanceTo)| > 0
  }

  /** The index of the series whose primary pass builds the table, if any. */
  function PrimaryIndex(ids: seq<SeriesId>, visible: map<SeriesId, bool>, data: map<SeriesId, seq<Observation>>,
                        selection: Option<SelectionRange>, distanceTo: (LatLng, LatLng) -> real): (k: Option<nat>)
    requires Covers(ids, visible, data)
    ensures k.Some? ==> k.value < |ids| && PrimaryCandidate(ids[k.value], visible, data, selection, distanceTo)
    ensures k.Some? ==> forall j :: 0 <= j < k.value ==> !PrimaryCandidate(ids[j], visible, data, selection, distanceTo)
    ensures k.None? ==> forall j :: 0 <= j < |ids| ==> !PrimaryCandidate(ids[j], visible, data, selection, distanceTo)
  {
    if |ids| == 0 then None
    else
      var n := |ids| - 1;
      assert forall i :: 0 <= i < n ==> ids[..n][i] == ids[i];
      var pre := PrimaryIndex(ids[..n], visible, data, selection, distanceTo);
      if pre.Some? then pre
      else if PrimaryCandidate(ids[n], visible, data, selection, distanceTo) then Some(n)
      else None
  }

  /** The table is empty when no series is a primary candidate; otherwise, up to
      the value columns, it is what the primary pass of the earliest candidate
      builds, whatever the later series merge into it. */
  lemma {:induction false} RebuildShape(ids: seq<SeriesId>, visible: map<SeriesId, bool>,
                                        data: map<SeriesId, seq<Observation>>,
                                        selection: Option<SelectionRange>, distanceTo: (LatLng, LatLng) -> real)
    requires Covers(ids, visible, data)
    ensures var k := PrimaryIndex(ids, visible, data, selection, distanceTo);
      var rs := Rebuild(ids, visible, data, selection, distanceTo);
      && (k.None? <==> rs == [])
      && (k.Some? ==> Strip(rs) == Strip(Primary(ids[k.value], data[ids[k.value]], selection, distanceTo)))
  {
    if |ids| > 0 {
      var n := |ids| - 1;
      var pre := ids[..n];
      assert forall i :: 0 <= i < n ==> pre[i] == ids[i];
      RebuildShape(pre, visible, data, selection, distanceTo);
      var base := Rebuild(pre, visible, data, selection, distanceTo);
      if visible[ids[n]] && |base| > 0 {
        MergedKeeps(base, ids[n], data[ids[n]], selection);
      }
    }
  }

  /** Without a selection, or with one that starts at a non-negative index,
      record `p` of the table is point `p + Shift` of the primary series: its
      tick is that index and lies in the window. */
  lemma RebuildTicks(ids: seq<SeriesId>, visible: map<SeriesId, bool>, data: map<SeriesId, seq<Observation>>,
                     selection: Option<SelectionRange>, distanceTo: (LatLng, LatLng) -> real)
    requires Covers(ids, visible, data)
    requires selection.Some? ==> selection.value.from >= 0
    ensures var rs := Rebuild(ids, visible, data, selection, distanceTo);
      forall p :: 0 <= p < |rs| ==> rs[p].tick == p + Shift(selection) && InWindow(selection, rs[p].tick)
  {
    RebuildShape(ids, visible, data, selection, distanceTo);
    var k := PrimaryIndex(ids, visible, data, selection, distanceTo);
    var rs := Rebuild(ids, visible, data, selection, distanceTo);
    if k.Some? {
      var id := ids[k.value];
      var ps := Primary(id, data[id], selection, distanceTo);
      PrimaryTicks(id, data[id], selection, distanceTo);
      forall p | 0 <= p < |rs|
        ensures rs[p].tick == p + Shift(selection) && InWindow(selection, rs[p].tick)
      {
        assert Strip(rs)[p].tick == Strip(ps)[p].tick;
      }
    }
  }

  /** Merging aligns by index: for every visible series after the primary one,
      each record whose tick is an index of that series holds, in the series'
      column, the value of the series' point at that tick. */
  lemma {:induction false} RebuildAlignsByTick(ids: seq<SeriesId>, visible: map<SeriesId, bool>,
                                               data: map<SeriesId, seq<Observation>>,
                                               selection: Option<SelectionRange>, distanceTo: (LatLng, LatLng) -> real,
                                               j: nat, p: nat)
    requires Covers(ids, visible, data)
    requires selection.Some? ==> selection.value.from >= 0
    requires PrimaryIndex(ids, visible, data, selection, distanceTo).Some?
    requires PrimaryIndex(ids, visible, data, selection, distanceTo).value < j < |ids| && visible[ids[j]]
    requires p < |Rebuild(ids, visible, data, selection, distanceTo)|
    requires Rebuild(ids, visible, data, selection, distanceTo)[p].tick < |data[ids[j]]|
    ensures var r := Rebuild(ids, visible, data, selection, distanceTo)[p];
      ids[j] in r.columns && r.columns[ids[j]] == data[ids[j]][r.tick].value
  {
    var n := |ids| - 1;
    var pre := ids[..n];
    var x := ids[n];
    RebuildPrefix(ids, visible, data, selection, distanceTo, p);
    RebuildLast(ids, visible, data, selection, distanceTo);
    var base := Rebuild(pre, visible, data, selection, distanceTo);
    assert Processable(x, visible, data);
    if j == n {
      var m := Merged(base, x, data[x], selection);
      MergedAt(base, x, data[x], selection, p);
      assert Written(selection, |data[x]|, p);
      assert Rebuild(ids, visible, data, selection, distanceTo) == m;
    } else {
      assert pre[j] == ids[j];
      RebuildAlignsByTick(pre, visible, data, selection, distanceTo, j, p);
      if visible[x] {
        MergedAt(base, x, data[x], selection, p);
      }
    }
  }

  /** Dropping the last series, when it is not the primary one, keeps the
      primary series, and each record of the table at the same position and
      tick, inside the window. */
  lemma RebuildPrefix(ids: seq<SeriesId>, visible: map<SeriesId, bool>, data: map<SeriesId, seq<Observation>>,
                      selection: Option<SelectionRange>, distanceTo: (LatLng, LatLng) -> real, p: nat)
    requires Covers(ids, visible, data)
    requires selection.Some? ==> selection.value.from >= 0
    requires PrimaryIndex(ids, visible, data, selection, distanceTo).Some?
    requires PrimaryIndex(ids, visible, data, selection, distanceTo).value < |ids| - 1
    requires p < |Rebuild(ids, visible, data, selection, distanceTo)|
    ensures var pre := ids[..|ids| - 1];
      && Covers(pre, visible, data)
      && PrimaryIndex(pre, visible, data, selection, distanceTo) == PrimaryIndex(ids, visible, data, selection, distanceTo)
      && var base := Rebuild(pre, visible, data, selection, distanceTo);
         && p < |base|
         && base[p].tick == p + Shift(selection) && InWindow(selection, base[p].tick)
  {
    var n := |ids| - 1;
    var pre := ids[..n];
    var x := ids[n];
    RebuildLast(ids, visible, data, selection, distanceTo);
    assert forall i :: 0 <= i < n ==> pre[i] == ids[i];
    var base := Rebuild(pre, visible, data, selection, distanceTo);
    RebuildShape(pre, visible, data, selection, distanceTo);
    RebuildTicks(pre, visible, data, selection, distanceTo);
    if visible[x] {
      MergedAt(base, x, data[x], selection, 0);
    }
  }

  /** `Rebuild` unfolded once: the last series is processed on the table of the others. */
  lemma RebuildLast(ids: seq<SeriesId>, visible: map<SeriesId, bool>, data: map<SeriesId, seq<Observation>>,
                    selection: Option<SelectionRange>, distanceTo: (LatLng, LatLng) -> real)
    requires Covers(ids, visible, data) && |ids| > 0
    ensures var n := |ids| - 1;
      && Covers(ids[..n], visible, data)
      && var base := Rebuild(ids[..n], visible, data, selection, distanceTo);
         Rebuild(ids, visible, data, selection, distanceTo)
           == if visible[ids[n]] then ProcessSeries(base, ids[n], data[ids[n]], selection, distanceTo) else base
  {
    var n := |ids| - 1;
    assert forall i :: 0 <= i < n ==> ids[..n][i] == ids[i];
  }

  /** Position `p` after a secondary pass. */
  lemma MergedAt(base: seq<Record>, id: SeriesId, points: seq<Observation>, selection: Option<SelectionRange>, p: nat)
    requires p < |base|
    ensures var m := Merged(base, id, points, selection);
      && |m| == |base| && m[p].tick == base[p].tick
      && (Written(selection, |points|, p) ==>
            m[p] == Assign(base[p], id, points[p + Shift(selection)].value))
      && (!Written(selection, |points|, p) ==> m[p] == base[p])
  {
  }

  /** The table is sorted by its horizontal key: always by ticks; by distance
      when no step is negative; by time when every series' timestamps ascend. */
  lemma RebuildKeysSorted(axis: AxisType, ids: seq<SeriesId>, visible: map<SeriesId, bool>,
                          data: map<SeriesId, seq<Observation>>,
                          selection: Option<SelectionRange>, distanceTo: (LatLng, LatLng) -> real)
    requires Covers(ids, visible, data)
    requires axis.Distance? ==> forall a, b :: distanceTo(a, b) >= 0.0
    requires axis.Time? ==> forall id :: id in ids && id in data ==>
      forall i, j :: 0 <= i < j < |data[id]| ==> data[id][i].timestamp <= data[id][j].timestamp
    ensures KeysSorted(axis, Rebuild(ids, visible, data, selection, distanceTo))
  {
    RebuildShape(ids, visible, data, selection, distanceTo);
    var k := PrimaryIndex(ids, visible, data, selection, distanceTo);
    var rs := Rebuild(ids, visible, data, selection, distanceTo);
    if k.Some? {
      var id := ids[k.value];
      var points := data[id];
      var ps := Primary(id, points, selection, distanceTo);
      var lo := WindowStart(selection);
      PrimaryLayout(id, points, selection, distanceTo, |points|);
      forall i, j | 0 <= i < j < |rs|
        ensures XValue(axis, rs[i]) <= XValue(axis, rs[j])
      {
        assert Strip(rs)[i] == Strip(ps)[i] && Strip(rs)[j] == Strip(ps)[j];
        EntryAtDist(id, points, lo + i, distanceTo);
        EntryAtDist(id, points, lo + j, distanceTo);
        if axis.Distance? {
          TenthsMonotone(points, lo + i, lo + j, distanceTo);
        }
      }
    }
  }
}
