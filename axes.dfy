/** The axis arithmetic of the trajectory graph: the horizontal key of a record
    (`getXValue`), the horizontal domain (`getXDomain`), the vertical domain of a
    series (`drawYAxis`), the stacking of the vertical axes side by side
    (`drawLineGraph` with `drawYAxis`) and the normalised drag range
    (`prepareRange`). Pixel measurements are inputs. */
module Axes {
  import opened TrajectoryTypes

  /** `getXValue`: the key of a record on the horizontal axis. */
  function XValue(axis: AxisType, r: Record): real
  {
    match axis
    case Distance => r.dist
    case Time => r.timestamp as real
    case Ticks => r.tick as real
    case Unspecified => r.tick as real
  }

  /** The records are in ascending order of their horizontal key. */
  ghost predicate KeysSorted(axis: AxisType, rs: seq<Record>)
  {
    forall i, j :: 0 <= i < j < |rs| ==> XValue(axis, rs[i]) <= XValue(axis, rs[j])
  }

  /** `getXDomain`: the keys of the first and the last record, for every axis
      type; an axis type matching no case uses the ticks. */
  function XDomain(axis: AxisType, values: seq<Record>): (domain: (real, real))
    requires |values| > 0
    ensures domain == (XValue(axis, values[0]), XValue(axis, values[|values| - 1]))
    ensures !axis.Distance? && !axis.Time? ==>
      domain == (values[0].tick as real, values[|values| - 1].tick as real)
  {
    match axis
    case Distance => (values[0].dist, values[|values| - 1].dist)
    case Time => (values[0].timestamp as real, values[|values| - 1].timestamp as real)
    case _ => (values[0].tick as real, values[|values| - 1].tick as real)
  }

  /** On records sorted by their key the horizontal domain is not reversed. */
  lemma XDomainOrdered(axis: AxisType, values: seq<Record>)
    requires |values| > 0 && KeysSorted(axis, values)
    ensures XDomain(axis, values).0 <= XDomain(axis, values).1
  {
    if |values| > 1 {
      assert XValue(axis, values[0]) <= XValue(axis, values[|values| - 1]);
    }
  }

  /** d3's `bisector(key).left` over `rs[lo..hi]`: halve the range, keeping
      every record before `lo` below `q` and every record from `hi` on at least `q`. */
  function BisectLeft(axis: AxisType, rs: seq<Record>, q: real, lo: nat, hi: nat): (i: nat)
    requires lo <= hi <= |rs|
    ensures lo <= i <= hi
    ensures (lo > 0 ==> XValue(axis, rs[lo - 1]) < q) && (hi < |rs| ==> q <= XValue(axis, rs[hi])) ==>
      (i > 0 ==> XValue(axis, rs[i - 1]) < q) && (i < |rs| ==> q <= XValue(axis, rs[i]))
    decreases hi - lo
  {
    if lo < hi then
      var mid := (lo + hi) / 2;
      if XValue(axis, rs[mid]) < q then BisectLeft(axis, rs, q, mid + 1, hi) else BisectLeft(axis, rs, q, lo, mid)
    else lo
  }

  /** The index `getItemForX` finds for the domain value `q`: the insertion point
      of `q` among the keys, to the left of equal keys. It may be `|rs|`. On
      sorted keys, everything before it is below `q` and everything from it on
      is not. */
  function ItemFor(axis: AxisType, rs: seq<Record>, q: real): (i: nat)
    ensures i <= |rs|
    ensures i > 0 ==> XValue(axis, rs[i - 1]) < q
    ensures i < |rs| ==> q <= XValue(axis, rs[i])
  {
    BisectLeft(axis, rs, q, 0, |rs|)
  }

  /** On sorted keys every record before the index found is below `q` and every
      record from it on is not: the index is the number of keys below `q`. */
  lemma ItemForSorted(axis: AxisType, rs: seq<Record>, q: real)
    requires KeysSorted(axis, rs)
    ensures var i := ItemFor(axis, rs, q);
      && (forall j :: 0 <= j < i ==> XValue(axis, rs[j]) < q)
      && (forall j :: i <= j < |rs| ==> q <= XValue(axis, rs[j]))
  {
  }

  /** On sorted keys the index is past the end exactly when `q` exceeds the last key. */
  lemma ItemForPastEnd(axis: AxisType, rs: seq<Record>, q: real)
    requires KeysSorted(axis, rs) && |rs| > 0
    ensures ItemFor(axis, rs, q) == |rs| <==> XValue(axis, rs[|rs| - 1]) < q
  {
    ItemForSorted(axis, rs, q);
  }

  /** d3's `extent`: the least and the greatest value, `None` when there is none. */
  function Extent(vs: seq<real>): (e: Option<(real, real)>)
    ensures e.None? <==> |vs| == 0
    ensures e.Some? ==> e.value.0 in vs && e.value.1 in vs
    ensures e.Some? ==> forall v :: v in vs ==> e.value.0 <= v <= e.value.1
  {
    if |vs| == 0 then None
    else
      var v := vs[|vs| - 1];
      assert vs == vs[..|vs| - 1] + [v];
      match Extent(vs[..|vs| - 1])
      case None => Some((v, v))
      case Some((lo, hi)) => Some((if v < lo then v else lo, if hi < v then v else hi))
  }

  /** The values of column `id` that `extent` takes into account: those of the
      records that have the column, and not `null`. */
  function ColumnValues(rs: seq<Record>, id: SeriesId): seq<real>
  {
    if |rs| == 0 then []
    else
      var r := rs[|rs| - 1];
      ColumnValues(rs[..|rs| - 1], id)
        + (if id in r.columns && r.columns[id].Some? then [r.columns[id].value] else [])
  }

  /** A value is taken into account exactly when some record holds it in column `id`. */
  lemma {:induction false} ColumnValuesMembers(rs: seq<Record>, id: SeriesId, v: real)
    ensures v in ColumnValues(rs, id) <==>
      exists i :: 0 <= i < |rs| && id in rs[i].columns && rs[i].columns[id] == Some(v)
  {
    if |rs| > 0 {
      var pre := rs[..|rs| - 1];
      ColumnValuesMembers(pre, id, v);
      if exists i :: 0 <= i < |rs| && id in rs[i].columns && rs[i].columns[id] == Some(v) {
        var i :| 0 <= i < |rs| && id in rs[i].columns && rs[i].columns[id] == Some(v);
        if i < |rs| - 1 {
          assert pre[i] == rs[i];
        }
      }
      if v in ColumnValues(pre, id) {
        var i :| 0 <= i < |pre| && id in pre[i].columns && pre[i].columns[id] == Some(v);
        assert rs[i] == pre[i];
      }
    }
  }

  /** The vertical domain `drawYAxis` computes from the values `vs`: their
      extent widened by a tenth of its range at both ends. `None` stands for
      the undefined extent of no values. There is no widening for a zero range. */
  function Domain(vs: seq<real>): Option<(real, real)>
  {
    match Extent(vs)
    case None => None
    case Some((lo, hi)) =>
      var rangeOffset := (hi - lo) * 0.10;
      Some((lo - rangeOffset, hi + rangeOffset))
  }

  /** The extent is the least and the greatest value, whatever their order in `vs`. */
  lemma ExtentIs(vs: seq<real>, lo: real, hi: real)
    requires lo in vs && hi in vs
    requires forall v :: v in vs ==> lo <= v <= hi
    ensures Extent(vs) == Some((lo, hi))
  {
    var e := Extent(vs);
    var a, b := e.value.0, e.value.1;
    assert a <= lo && lo <= a;
    assert hi <= b && b <= hi;
  }

  /** The domain ends a tenth of the range below the least value and a tenth
      of the range above the greatest. */
  lemma DomainValue(vs: seq<real>, lo: real, hi: real)
    requires lo in vs && hi in vs
    requires forall v :: v in vs ==> lo <= v <= hi
    ensures Domain(vs) == Some((lo - (hi - lo) * 0.1, hi + (hi - lo) * 0.1))
  {
    ExtentIs(vs, lo, hi);
  }

  /** The vertical domain of series `id`: undefined when the column holds no
      value; otherwise ordered, containing every value, and of zero width
      exactly when all values coincide. */
  function YDomain(rs: seq<Record>, id: SeriesId): (d: Option<(real, real)>)
    ensures d.None? <==> |ColumnValues(rs, id)| == 0
    ensures d.Some? ==> d.value.0 <= d.value.1
    ensures d.Some? ==> forall v :: v in ColumnValues(rs, id) ==> d.value.0 <= v <= d.value.1
    ensures d.Some? ==>
      (d.value.0 == d.value.1 <==> forall v, w :: v in ColumnValues(rs, id) && w in ColumnValues(rs, id) ==> v == w)
  {
    Domain(ColumnValues(rs, id))
  }

  /** Where the vertical domain of series `id` ends: a tenth of the range of its
      values beyond the least and the greatest of them. */
  lemma YDomainValue(rs: seq<Record>, id: SeriesId, lo: real, hi: real)
    requires lo in ColumnValues(rs, id) && hi in ColumnValues(rs, id)
    requires forall v :: v in ColumnValues(rs, id) ==> lo <= v <= hi
    ensures YDomain(rs, id) == Some((lo - (hi - lo) * 0.1, hi + (hi - lo) * 0.1))
  {
    DomainValue(ColumnValues(rs, id), lo, hi);
  }

  /** The width an axis takes: its measured width, but at least 30. */
  function Pad(w: real): (p: real)
    ensures p >= 30.0 && p >= w
    ensures p == w || p == 30.0
  {
    if w < 30.0 then 30.0 else w
  }

  function PadSum(ws: seq<real>): real
  {
    if |ws| == 0 then 0.0 else PadSum(ws[..|ws| - 1]) + Pad(ws[|ws| - 1])
  }

  /** The offset (`bufferSum`) in force when the `j`-th axis of those with
      measured widths `ws` is drawn: the padded widths of the axes before it,
      except the first axis's, which never advances the sum. */
  function AxisOffset(ws: seq<real>, j: nat): real
    requires j <= |ws|
  {
    if j <= 1 then 0.0 else PadSum(ws[1..j])
  }

  /** Drawing axis `j` advances the offset by its padded width, unless it is the first. */
  lemma AxisOffsetStep(ws: seq<real>, j: nat)
    requires j < |ws|
    ensures AxisOffset(ws, j + 1) == AxisOffset(ws, j) + (if j == 0 then 0.0 else Pad(ws[j]))
  {
    if j >= 1 {
      var sub := ws[1..j + 1];
      assert sub[..j - 1] == ws[1..j] && sub[j - 1] == ws[j];
      assert PadSum(sub) == PadSum(ws[1..j]) + Pad(ws[j]);
      assert j == 1 ==> PadSum(ws[1..j]) == 0.0;
    }
  }

  /** Offsets grow by at least 30 per axis after the second one, so they never decrease. */
  lemma {:induction false} AxisOffsetGrows(ws: seq<real>, i: nat, j: nat)
    requires 1 <= i <= j <= |ws|
    ensures AxisOffset(ws, j) >= AxisOffset(ws, i) + 30.0 * (j - i) as real
    ensures AxisOffset(ws, i) >= 0.0
  {
    if j == i {
      if i > 1 {
        AxisOffsetGrows(ws, 1, i);
      }
    } else {
      AxisOffsetGrows(ws, i, j - 1);
      AxisOffsetStep(ws, j - 1);
    }
  }

  /** A d3 linear scale as far as the model sees it: its domain, undefined when
      the extent is. The pixel range is not modelled. */
  datatype YScale = YScale(domain: Option<(real, real)>)

  /** A d3 linear scale: the domain it maps onto the pixel range. */
  datatype LinearScale = LinearScale(domain: (real, real), range: (real, real))

  /** The options `drawLineGraph` records for one drawn series and the result of
      `drawYAxis` for it: whether it is the first (the base scale), its offset,
      the `buffer` its axis is shifted by, and its vertical domain. */
  datatype AxisPlan = AxisPlan(id: SeriesId, first: bool, offset: real, buffer: real, yScale: YScale)

  /** A series gets an axis when it has options, is visible and has data. */
  predicate Drawn(id: SeriesId, visible: map<SeriesId, bool>, loaded: set<SeriesId>)
  {
    id in visible && visible[id] && id in loaded
  }

  /** The series of `order` that get an axis, in order, with their measured widths. */
  function DrawnSeries(order: seq<SeriesId>, widths: seq<real>, visible: map<SeriesId, bool>, loaded: set<SeriesId>)
    : seq<(SeriesId, real)>
    requires |order| == |widths|
  {
    if |order| == 0 then []
    else
      var n := |order| - 1;
      var pre := DrawnSeries(order[..n], widths[..n], visible, loaded);
      if Drawn(order[n], visible, loaded) then pre + [(order[n], widths[n])] else pre
  }

  /** Only drawn series get an axis, each at most once per entry of `order`, and
      no axis is drawn exactly when no series of `order` is drawn. */
  lemma {:induction false} DrawnSeriesMembers(order: seq<SeriesId>, widths: seq<real>,
                                              visible: map<SeriesId, bool>, loaded: set<SeriesId>)
    requires |order| == |widths|
    ensures var e := DrawnSeries(order, widths, visible, loaded);
      && |e| <= |order|
      && (forall j :: 0 <= j < |e| ==> Drawn(e[j].0, visible, loaded))
      && (|e| == 0 <==> forall i :: 0 <= i < |order| ==> !Drawn(order[i], visible, loaded))
  {
    if |order| > 0 {
      var n := |order| - 1;
      DrawnSeriesMembers(order[..n], widths[..n], visible, loaded);
      assert forall i :: 0 <= i < n ==> order[..n][i] == order[i];
    }
  }

  /** Looking at one more series of `order` appends it if it is drawn. */
  lemma DrawnSeriesSnoc(order: seq<SeriesId>, widths: seq<real>, visible: map<SeriesId, bool>, loaded: set<SeriesId>, i: nat)
    requires |order| == |widths| && i < |order|
    ensures DrawnSeries(order[..i + 1], widths[..i + 1], visible, loaded)
         == DrawnSeries(order[..i], widths[..i], visible, loaded)
            + (if Drawn(order[i], visible, loaded) then [(order[i], widths[i])] else [])
  {
    assert order[..i + 1][..i] == order[..i] && widths[..i + 1][..i] == widths[..i];
  }

  /** The first series that gets an axis is the earliest drawn series of `order`. */
  lemma {:induction false} DrawnSeriesHead(order: seq<SeriesId>, widths: seq<real>, visible: map<SeriesId, bool>, loaded: set<SeriesId>)
    requires |order| == |widths|
    requires |DrawnSeries(order, widths, visible, loaded)| > 0
    ensures exists i :: 0 <= i < |order| && DrawnSeries(order, widths, visible, loaded)[0] == (order[i], widths[i]) &&
                        forall k :: 0 <= k < i ==> !Drawn(order[k], visible, loaded)
  {
    var n := |order| - 1;
    var pre := DrawnSeries(order[..n], widths[..n], visible, loaded);
    if |pre| == 0 {
      DrawnSeriesMembers(order[..n], widths[..n], visible, loaded);
      assert forall k :: 0 <= k < n ==> !Drawn(order[..n][k], visible, loaded);
      assert DrawnSeries(order, widths, visible, loaded)[0] == (order[n], widths[n]);
    } else {
      DrawnSeriesHead(order[..n], widths[..n], visible, loaded);
      var i :| 0 <= i < n && pre[0] == (order[..n][i], widths[..n][i]) &&
               forall k :: 0 <= k < i ==> !Drawn(order[..n][k], visible, loaded);
      assert DrawnSeries(order, widths, visible, loaded)[0] == (order[i], widths[i]);
    }
  }

  function Widths(e: seq<(SeriesId, real)>): (ws: seq<real>)
    ensures |ws| == |e| && forall j :: 0 <= j < |e| ==> ws[j] == e[j].1
  {
    seq(|e|, j requires 0 <= j < |e| => e[j].1)
  }

  /** The axis plans of the drawn series `e`, one per series in order, over the records `rs`. */
  function Plans(e: seq<(SeriesId, real)>, rs: seq<Record>): seq<AxisPlan>
  {
    var ws := Widths(e);
    seq(|e|, j requires 0 <= j < |e| =>
      AxisPlan(e[j].0, j == 0, AxisOffset(ws, j), AxisOffset(ws, j) + Pad(ws[j]), YScale(YDomain(rs, e[j].0))))
  }

  /** Exactly one plan is the first, the one of the earliest drawn series; the
      offsets never decrease; every axis is shifted by at least 30 beyond its offset. */
  lemma PlansShape(e: seq<(SeriesId, real)>, rs: seq<Record>)
    ensures var ps := Plans(e, rs);
      && |ps| == |e|
      && (forall j :: 0 <= j < |ps| ==> (ps[j].first <==> j == 0))
      && (forall j :: 0 <= j < |ps| ==> ps[j].id == e[j].0 && ps[j].buffer >= ps[j].offset + 30.0)
      && (forall i, j :: 0 <= i <= j < |ps| ==> 0.0 <= ps[i].offset <= ps[j].offset)
  {
    var ws := Widths(e);
    var ps := Plans(e, rs);
    forall i, j | 0 <= i <= j < |ps|
      ensures 0.0 <= ps[i].offset <= ps[j].offset
    {
      if i == 0 {
        if j > 0 {
          AxisOffsetGrows(ws, 1, j);
        }
      } else {
        AxisOffsetGrows(ws, i, j);
      }
    }
  }

  /** Appending a series leaves the offsets of the earlier axes unchanged. */
  lemma OffsetsKept(e: seq<(SeriesId, real)>, x: (SeriesId, real), j: nat)
    requires j <= |e|
    ensures AxisOffset(Widths(e + [x]), j) == AxisOffset(Widths(e), j)
  {
    var ws, ws' := Widths(e), Widths(e + [x]);
    if j > 1 {
      assert ws'[1..j] == ws[1..j];
    }
  }

  /** One more drawn series appends one plan, built from the offset so far, and
      advances the offset by its padded width unless it is the first. */
  lemma PlansSnoc(e: seq<(SeriesId, real)>, x: (SeriesId, real), rs: seq<Record>)
    ensures var off := AxisOffset(Widths(e), |e|);
      && Plans(e + [x], rs) == Plans(e, rs) + [AxisPlan(x.0, |e| == 0, off, off + Pad(x.1), YScale(YDomain(rs, x.0)))]
      && AxisOffset(Widths(e + [x]), |e| + 1) == off + (if |e| == 0 then 0.0 else Pad(x.1))
  {
    var ws' := Widths(e + [x]);
    var ps, ps' := Plans(e, rs), Plans(e + [x], rs);
    forall j | 0 <= j < |e|
      ensures ps'[j] == ps[j]
    {
      OffsetsKept(e, x, j);
    }
    OffsetsKept(e, x, |e|);
    AxisOffsetStep(ws', |e|);
  }

  /** The state the axis loop of `drawLineGraph` keeps: the plans so far, `bufferSum`
      and `yScaleBase`. */
  datatype Stacking = Stacking(plans: seq<AxisPlan>, bufferSum: real, yScaleBase: Option<YScale>)

  /** The state after the drawn series `e`, one iteration per series: its plan
      is `first` exactly when no base scale exists yet and takes the current
      `bufferSum` as offset; the first series sets the base scale, every later
      one moves `bufferSum` to its `buffer`. */
  function Stacked(e: seq<(SeriesId, real)>, rs: seq<Record>): Stacking
  {
    if |e| == 0 then Stacking([], 0.0, None)
    else
      var s := Stacked(e[..|e| - 1], rs);
      var x := e[|e| - 1];
      var plan := AxisPlan(x.0, s.yScaleBase.None?, s.bufferSum, s.bufferSum + Pad(x.1), YScale(YDomain(rs, x.0)));
      Stacking(s.plans + [plan],
               if s.yScaleBase.None? then s.bufferSum else plan.buffer,
               if s.yScaleBase.None? then Some(plan.yScale) else s.yScaleBase)
  }

  /** The iterations add up to the plans of `Plans`: `bufferSum` ends as the
      padded widths of all axes but the first, and the base scale is the scale
      of the first drawn series, if there is one. */
  lemma {:induction false} StackedPlans(e: seq<(SeriesId, real)>, rs: seq<Record>)
    ensures Stacked(e, rs) == Stacking(Plans(e, rs), AxisOffset(Widths(e), |e|),
                                       if |e| == 0 then None else Some(YScale(YDomain(rs, e[0].0))))
  {
    if |e| > 0 {
      var pre, x := e[..|e| - 1], e[|e| - 1];
      assert pre + [x] == e;
      StackedPlans(pre, rs);
      PlansSnoc(pre, x, rs);
      if |pre| > 0 {
        assert e[0] == pre[0];
      }
    }
  }

  /** `prepareRange`: the two ends in ascending order. */
  function PrepareRange(from: int, to: int): (r: SelectionRange)
    ensures r.from <= r.to
    ensures (r.from == from && r.to == to) || (r.from == to && r.to == from)
  {
    if from <= to then SelectionRange(from, to) else SelectionRange(to, from)
  }
}
