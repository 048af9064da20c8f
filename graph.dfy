/** The trajectory graph component's state and the handlers that change it:
    rebuilding the record table, stacking the vertical axes, looking up the
    record under the pointer, and the drag selection. Drawing is not modelled;
    what it measures (axis widths) and the pointer positions are parameters,
    and the float inversion of a d3 linear scale is the function `invert`. */
module TrajectoryGraph {
  import opened TrajectoryTypes
  import opened Distance
  import opened Axes
  import opened Records

  /** What a mouse handler emits: nothing, an event value, or the `TypeError`
      JavaScript throws when it reads `baseValues[idx].tick` one past the end. */
  datatype Emission<T> = Silent | Emitted(value: T) | TypeError

  class Graph {
    // The series, their options and their loaded data (`datasetIds`,
    // `datasetOptions.get(id).visible`, `datasetMap.get(id).data`).
    var datasetIds: seq<SeriesId>
    var visible: map<SeriesId, bool>
    var data: map<SeriesId, seq<Observation>>
    var selection: Option<SelectionRange>
    var axisType: AxisType
    /** Length of the data set loaded last (`dataLength`). */
    var dataLength: nat
    /** Leaflet's `distanceTo`, in metres. */
    const distanceTo: (LatLng, LatLng) -> real
    /** d3's `invert` of a linear scale: pixel to domain value. */
    const invert: (LinearScale, real) -> real
    /** `xScaleBase`, undefined until `drawXAxis` first runs. */
    var xScale: Option<LinearScale>

    var baseValues: seq<Record>
    var bufferSum: real
    var yScaleBase: Option<YScale>
    var dragging: bool
    var dragStart: Option<real>
    var dragCurrent: Option<real>

    /** While a drag is in progress, the pointer has been moved since the press. */
    ghost predicate Valid()
      reads this
    {
      dragStart.Some? && dragging ==> dragCurrent.Some?
    }

    constructor (distanceTo: (LatLng, LatLng) -> real, invert: (LinearScale, real) -> real)
      ensures Valid()
      ensures this.distanceTo == distanceTo && this.invert == invert && xScale.None?
      ensures datasetIds == [] && visible == map[] && data == map[] && selection.None?
      ensures axisType == Distance && baseValues == [] && dataLength == 0
      ensures bufferSum == 0.0 && yScaleBase.None?
      ensures !dragging && dragStart.None? && dragCurrent.None?
    {
      this.distanceTo := distanceTo;
      this.invert := invert;
      xScale := None;
      datasetIds := [];
      visible := map[];
      data := map[];
      selection := None;
      axisType := Distance;
      dataLength := 0;
      baseValues := [];
      bufferSum := 0.0;
      yScaleBase := None;
      dragging := false;
      dragStart := None;
      dragCurrent := None;
    }

    /** `processDataForId`: an invisible series changes nothing; a visible one
        builds the table if it is empty and is merged into it otherwise. A
        series without options, or a visible one whose data is not loaded,
        makes the lookups throw a `TypeError` before the table is touched. */
    method ProcessDataForId(id: SeriesId) returns (threw: bool)
      modifies this`baseValues
      ensures threw <==> !Processable(id, visible, data)
      ensures threw ==> baseValues == old(baseValues)
      ensures !threw ==>
        baseValues == if visible[id] then ProcessSeries(old(baseValues), id, data[id], selection, distanceTo)
                      else old(baseValues)
    {
      if id !in visible {
        return true;
      }
      threw := false;
      if visible[id] {
        if id !in data {
          return true;
        }
        ProcessPoints(id, data[id]);
      }
    }

    /** The `forEach` over the points of a visible series: the primary pass into
        an empty table, the merge pass into a non-empty one. */
    method ProcessPoints(id: SeriesId, points: seq<Observation>)
      modifies this`baseValues
      ensures baseValues == ProcessSeries(old(baseValues), id, points, selection, distanceTo)
    {
      var firstEntry := |baseValues| == 0;
      var previous: Option<Record> := None;
      ghost var base := baseValues;
      for idx := 0 to |points|
        invariant firstEntry ==> baseValues == PrimaryUpTo(id, points, selection, distanceTo, idx)
        invariant firstEntry ==> previous == if idx == 0 then None else Some(EntryAt(id, points, idx - 1, distanceTo))
        invariant !firstEntry ==> baseValues == MergedUpTo(base, id, points, selection, idx)
      {
        var elem := points[idx];
        if firstEntry {
          var entry := CreateDataEntry(id, elem, previous, idx, distanceTo);
          if selection.Some? {
            if selection.value.from <= idx <= selection.value.to {
              baseValues := baseValues + [entry];
            }
          } else {
            baseValues := baseValues + [entry];
          }
          previous := Some(entry);
        } else {
          if selection.Some? {
            if selection.value.from <= idx <= selection.value.to {
              var pos := idx - selection.value.from;
              if pos < |baseValues| {
                baseValues := baseValues[pos := Assign(baseValues[pos], id, elem.value)];
              }
            }
          } else {
            if idx < |baseValues| {
              baseValues := baseValues[idx := Assign(baseValues[idx], id, elem.value)];
            }
          }
          WrittenStep(selection, idx);
        }
      }
    }

    /** `processAllData`: empty the table and process every series in order.
        When a series throws, the series after it are not processed and the
        table keeps what the series before it built. */
    method ProcessAllData() returns (threw: bool)
      modifies this`baseValues
      ensures var k := ProcessedCount(datasetIds, visible, data);
        threw == (k < |datasetIds|) && baseValues == Rebuild(datasetIds[..k], visible, data, selection, distanceTo)
    {
      ghost var k := ProcessedCount(datasetIds, visible, data);
      baseValues := [];
      for i := 0 to |datasetIds|
        invariant i <= k
        invariant Covers(datasetIds[..i], visible, data)
        invariant baseValues == Rebuild(datasetIds[..i], visible, data, selection, distanceTo)
      {
        ghost var ids := datasetIds[..i + 1];
        assert ids[..i] == datasetIds[..i] && ids[i] == datasetIds[i];
        threw := ProcessDataForId(datasetIds[i]);
        if threw {
          assert forall j :: 0 <= j < k ==> datasetIds[..k][j] == datasetIds[j];
          assert k == i;
          return;
        }
        RebuildLast(ids, visible, data, selection, distanceTo);
      }
      assert datasetIds[..|datasetIds|] == datasetIds;
      threw := false;
    }

    /** `ngOnChanges` for a new selection: when the new selection is set the
        table is rebuilt and, unless the rebuild throws, the graph is drawn
        again (`drawLineGraph`); clearing the selection changes nothing else. */
    method SelectionChanged(sel: Option<SelectionRange>, order: seq<SeriesId>, widths: seq<real>, width: real)
      returns (threw: bool, plans: seq<AxisPlan>)
      requires |order| == |widths|
      modifies this`selection, this`baseValues, this`bufferSum, this`yScaleBase, this`xScale
      ensures selection == sel
      ensures sel.None? ==> !threw && baseValues == old(baseValues)
      ensures sel.Some? ==> var k := ProcessedCount(datasetIds, visible, data);
        threw == (k < |datasetIds|) && baseValues == Rebuild(datasetIds[..k], visible, data, sel, distanceTo)
      ensures sel.None? || threw || |baseValues| == 0 ==>
        plans == [] && bufferSum == old(bufferSum) && yScaleBase == old(yScaleBase) && xScale == old(xScale)
      ensures sel.Some? && !threw && |baseValues| > 0 ==>
        && Stacking(plans, bufferSum, yScaleBase) == Stacked(DrawnSeries(order, widths, visible, data.Keys), baseValues)
        && xScale == if yScaleBase.Some? then Some(LinearScale(XDomain(axisType, baseValues), (bufferSum, width)))
                     else old(xScale)
    {
      selection := sel;
      threw, plans := false, [];
      if sel.Some? {
        threw := ProcessAllData();
        if !threw {
          plans := DrawLineGraph(order, widths, width);
        }
      }
    }

    /** `drawLineGraph` as far as it computes: the axis loop (`StackAxes`),
        then `drawXAxis`, which sets the horizontal scale when some axis was
        drawn. `order` is the iteration order of the series map, `widths[i]` the
        measured width of the axis of `order[i]`, and `width` the drawing width.
        Nothing is drawn, and nothing changes, while the table is empty. */
    method DrawLineGraph(order: seq<SeriesId>, widths: seq<real>, width: real) returns (plans: seq<AxisPlan>)
      requires |order| == |widths|
      modifies this`bufferSum, this`yScaleBase, this`xScale
      ensures |baseValues| == 0 ==>
        plans == [] && bufferSum == old(bufferSum) && yScaleBase == old(yScaleBase) && xScale == old(xScale)
      ensures |baseValues| > 0 ==>
        Stacking(plans, bufferSum, yScaleBase) == Stacked(DrawnSeries(order, widths, visible, data.Keys), baseValues)
      ensures |baseValues| > 0 ==>
        xScale == if yScaleBase.Some? then Some(LinearScale(XDomain(axisType, baseValues), (bufferSum, width)))
                  else old(xScale)
    {
      plans := [];
      if |baseValues| == 0 {
        return;
      }
      plans := StackAxes(order, widths);
      if yScaleBase.None? {
        return;
      }
      xScale := Some(LinearScale(XDomain(axisType, baseValues), (bufferSum, width)));
    }

    /** The axis loop of `drawLineGraph`, with `drawYAxis` computing each
        axis's scale and `buffer`, from `bufferSum` reset to 0 and no base scale. */
    method StackAxes(order: seq<SeriesId>, widths: seq<real>) returns (plans: seq<AxisPlan>)
      requires |order| == |widths|
      modifies this`bufferSum, this`yScaleBase
      ensures Stacking(plans, bufferSum, yScaleBase) == Stacked(DrawnSeries(order, widths, visible, data.Keys), baseValues)
    {
      plans := [];
      bufferSum := 0.0;
      yScaleBase := None;
      ghost var drawn: seq<(SeriesId, real)> := [];
      for i := 0 to |order|
        invariant drawn == DrawnSeries(order[..i], widths[..i], visible, data.Keys)
        invariant Stacking(plans, bufferSum, yScaleBase) == Stacked(drawn, baseValues)
      {
        DrawnSeriesSnoc(order, widths, visible, data.Keys, i);
        var id := order[i];
        if id in visible && id in data && visible[id] {
          assert (drawn + [(id, widths[i])])[..|drawn|] == drawn;
          var options := AxisPlan(id, yScaleBase.None?, bufferSum, bufferSum + Pad(widths[i]), YScale(YDomain(baseValues, id)));
          plans := plans + [options];
          if yScaleBase.None? {
            yScaleBase := Some(options.yScale);
          } else {
            bufferSum := options.buffer;
          }
          drawn := drawn + [(id, widths[i])];
        }
      }
      assert order[..|order|] == order && widths[..|widths|] == widths;
    }

    /** `getItemForX`: the index of the record for pixel `x`, found by bisection
        over the whole table (whatever the caller passes as `data`). */
    method ItemForX(x: real) returns (idx: nat)
      requires xScale.Some?
      ensures idx == ItemFor(axisType, baseValues, invert(xScale.value, x))
    {
      var index := invert(xScale.value, x);
      var rs, axis := baseValues, axisType;
      ghost var target := ItemFor(axis, rs, index);
      var lo, hi := 0, |rs|;
      while lo < hi
        invariant 0 <= lo <= hi <= |rs|
        invariant BisectLeft(axis, rs, index, lo, hi) == target
        decreases hi - lo
      {
        var mid := (lo + hi) / 2;
        if XValue(axis, rs[mid]) < index {
          lo := mid + 1;
        } else {
          hi := mid;
        }
      }
      idx := lo;
    }

    /** Every id of `ids` has options: `showLabelValues` reads
        `datasetOptions.get(id).visible` for every entry of the series map. */
    predicate HaveOptions(ids: seq<SeriesId>)
      reads this`visible
    {
      forall i :: 0 <= i < |ids| ==> ids[i] in visible
    }

    /** `mousemoveHandler` with `showDiagramIndicator`: the tick of the record
        under the pointer; nothing while the table is empty. A `TypeError` is
        thrown when there is no horizontal scale yet, when the lookup runs past
        the end, or when `showLabelValues` meets an entry of the series map
        without options. `mapIds` are the keys of the series map. */
    method Hover(px: real, mapIds: seq<SeriesId>) returns (e: Emission<nat>)
      ensures |baseValues| == 0 <==> e.Silent?
      ensures e.Emitted? ==>
        && xScale.Some? && HaveOptions(mapIds)
        && var i := ItemFor(axisType, baseValues, invert(xScale.value, px + bufferSum));
           i < |baseValues| && e.value == baseValues[i].tick
      ensures e.TypeError? <==>
        |baseValues| > 0 &&
        (xScale.None? || ItemFor(axisType, baseValues, invert(xScale.value, px + bufferSum)) == |baseValues| ||
         !HaveOptions(mapIds))
    {
      if |baseValues| == 0 {
        return Silent;
      }
      if xScale.None? {
        return TypeError;
      }
      var idx := ItemForX(px + bufferSum);
      if idx >= |baseValues| {
        return TypeError;
      }
      for i := 0 to |mapIds|
        invariant HaveOptions(mapIds[..i])
      {
        if mapIds[i] !in visible {
          return TypeError;
        }
      }
      assert mapIds[..|mapIds|] == mapIds;
      e := Emitted(baseValues[idx].tick);
    }

    /** The range a drag from pixel `a` to pixel `b` selects, in original
        indices; a `TypeError` when either lookup runs past the end. */
    function DragRange(a: real, b: real): Emission<SelectionRange>
      reads this`axisType, this`baseValues, this`xScale, this`bufferSum
    {
      if xScale.None? then TypeError
      else
        var from := ItemFor(axisType, baseValues, invert(xScale.value, a + bufferSum));
        var to := ItemFor(axisType, baseValues, invert(xScale.value, b + bufferSum));
        if from < |baseValues| && to < |baseValues|
        then Emitted(PrepareRange(baseValues[from].tick, baseValues[to].tick))
        else TypeError
    }

    /** The two lookups and `prepareRange` shared by `drawDragRectangle` and
        `dragEndHandler`. */
    method LookupRange(a: real, b: real) returns (e: Emission<SelectionRange>)
      ensures e == DragRange(a, b)
    {
      if xScale.None? {
        return TypeError;
      }
      var from := ItemForX(a + bufferSum);
      var to := ItemForX(b + bufferSum);
      if from < |baseValues| && to < |baseValues| {
        e := Emitted(PrepareRange(baseValues[from].tick, baseValues[to].tick));
      } else {
        e := TypeError;
      }
    }

    /** `dragStartHandler`. */
    method DragStart(px: real)
      requires Valid()
      modifies this`dragging, this`dragStart
      ensures Valid()
      ensures !dragging && dragStart == Some(px)
    {
      dragging := false;
      dragStart := Some(px);
    }

    /** `dragHandler` with `drawDragRectangle`: marks the drag as moving and,
        when a drag was started, emits the range from the start to here. */
    method DragMove(px: real) returns (e: Emission<SelectionRange>)
      requires Valid()
      modifies this`dragging, this`dragCurrent
      ensures Valid() && dragging
      ensures old(dragStart).None? ==> e.Silent? && dragCurrent == old(dragCurrent)
      ensures old(dragStart).Some? ==> dragCurrent == Some(px) && e == DragRange(dragStart.value, px)
    {
      dragging := true;
      if dragStart.None? {
        return Silent;
      }
      dragCurrent := Some(px);
      e := LookupRange(dragStart.value, px);
    }

    /** `dragEndHandler`: the whole range when no drag was started or the pointer
        did not move, the dragged range otherwise; the drag is reset after an
        emission, but not when the lookup threw. */
    method DragEnd() returns (e: Emission<SelectionRange>)
      requires Valid()
      modifies this`dragging, this`dragStart
      ensures Valid()
      ensures old(dragStart).None? || !old(dragging) ==> e == Emitted(SelectionRange(0, dataLength))
      ensures old(dragStart).Some? && old(dragging) ==> e == DragRange(old(dragStart).value, dragCurrent.value)
      ensures e.Emitted? ==> dragStart.None? && !dragging
      ensures e.TypeError? ==> dragStart == old(dragStart) && dragging == old(dragging)
    {
      if dragStart.None? || !dragging {
        e := Emitted(SelectionRange(0, dataLength));
      } else {
        e := LookupRange(dragStart.value, dragCurrent.value);
        if e.TypeError? {
          return;
        }
      }
      dragStart := None;
      dragging := false;
    }
  }
}
