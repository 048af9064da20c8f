# Trajectory graph data model

A Dafny model of the data side of the trajectory graph component of the
Helgoland toolbox (`D3TrajectoryGraphComponent`). The component plots several
located time series along one geographic path. The model covers the parts of
it that compute rather than draw:

- the record table `baseValues`. `processAllData` empties it and runs
  `processDataForId` once per series. The first visible series with a point in
  the selection window becomes the primary series and builds one record per
  point of the window. Every later series writes its values into the existing
  records, aligned by index;
- the cumulative path distance in `createDataEntry`. Each step is rounded to
  1e-5 km, and the running total is rounded to 0.1 km;
- the horizontal key and domain (`getXValue`, `getXDomain`) for the three axis
  types;
- the record lookup under the pointer (`getItemForX`, a left bisection);
- the vertical domain of a series, the side-by-side stacking of the
  vertical axes and the horizontal scale set after them (`drawLineGraph` with
  `drawYAxis` and `drawXAxis`);
- the drag-selection handlers and `prepareRange`.

Files:

- `types.dfy` holds the shared values: observations, records, selection
  ranges and axis types.
- `distance.dfy` models `createDataEntry`. The stored distance is proved to be
  an exact number of tenths of a kilometre.
- `axes.dfy` holds the pure axis functions and the bisection.
- `records.dfy` holds the record table as a value: the primary pass, the merge
  pass and the full rebuild, with the lemmas about them.
- `graph.dfy` holds the component as a class, `TrajectoryGraph.Graph`. Its
  fields are the ones the handlers update. Its methods state their results
  and new state through the functions of `records.dfy` and `axes.dfy`, and
  their loops are proved against those functions.

Some inputs come from code outside the model and are parameters:

- Leaflet's `distanceTo` is the function `distanceTo`, in metres.
- d3's linear scale `xScaleBase` is the value `xScale`, a domain and a pixel
  range; its `invert` is the function `invert`.
- The drawing width `this.width` is the argument `width`.
- Pointer positions are pixel arguments.
- Measured axis widths are the argument `widths`.
- The iteration order of the series map is the argument `order`.

Arithmetic is exact, over `real`. `Math.round` is `Round`, which rounds
halves upwards.

Where the code throws, the model says so. `processDataForId` throws a
`TypeError` for a series without options, and for a visible series whose data
is not loaded yet; `ProcessDataForId` reports it and leaves the table alone,
and `ProcessAllData` stops at the first such series, keeping the table the
series before it built. A lookup can return one past the last record, and
reading `baseValues[idx].tick` then throws a `TypeError`. The mouse handlers
return `TypeError` in that case, and also before any horizontal scale exists.
The hover handler also throws in `showLabelValues` (line 565) when a series of
the series map has no options. When the release handler throws, the drag is
not reset.

Behaviour of the code worth knowing:

- A series whose values all coincide gets a zero-width vertical domain. The
  code adds no fallback padding, so `YDomain` has none either.
- The primary pass keeps only the points inside the selection window, one
  record per point in the window.
- A release without a drag emits `{from: 0, to: dataLength}`.
  `dataLength` is the length of the series loaded last, not necessarily the
  primary series' length.
- The floor of 30 applies to an axis's measured width as a whole.

## Model

| member | source | states |
|---|---|---|
| `Distance.CreateDataEntry` | src/@helgoland/d3/src/d3-trajectory-graph/d3-trajectory-graph.component.ts:276-302 | Definition of `createDataEntry`; its contract is `Distance.CreateDataEntryDist`. |
| `Distance.CreateDataEntryDist` | src/@helgoland/d3/src/d3-trajectory-graph/d3-trajectory-graph.component.ts:276-302 | A record built without a predecessor lies at distance 0. One built after a record at `t` tenths of a km lies at `t + StepTenths(step)` tenths, an exact multiple of 0.1 km. Tick, timestamp, value, position and the series column come from the point. |
| `Distance.RoundTenths` | src/@helgoland/d3/src/d3-trajectory-graph/d3-trajectory-graph.component.ts:287-293 | Rounding `t` tenths plus `s` units of 1e-5 km to 0.1 km adds exactly `(s + 5000) div 10000` tenths. |
| `Distance.Round` | src/@helgoland/d3/src/d3-trajectory-graph/d3-trajectory-graph.component.ts:287 | `Math.round` gives the integer within half a unit of its argument, with halves rounded upwards. |
| `Distance.EntryAtDist` | src/@helgoland/d3/src/d3-trajectory-graph/d3-trajectory-graph.component.ts:247-258 | Chaining `previous` through every point gives record `i` tick `i` and distance `Tenths(i)/10`. The first point is at 0. Each later point adds the rounded step from the point just before it. |
| `Distance.TenthsMonotone` | src/@helgoland/d3/src/d3-trajectory-graph/d3-trajectory-graph.component.ts:283-293 | When no step length is negative, distances are non-negative and never decrease along the path. |
| `Distance.ShortStepAddsNothing` | src/@helgoland/d3/src/d3-trajectory-graph/d3-trajectory-graph.component.ts:287-293 | A step of non-negative length adds nothing exactly when it is shorter than 49.995 m. |
| `Distance.ShortStepsStayAtZero` | src/@helgoland/d3/src/d3-trajectory-graph/d3-trajectory-graph.component.ts:283-293 | A path made only of such short steps stays at distance 0, however long it is. |
| `Distance.DoubleRounding` | src/@helgoland/d3/src/d3-trajectory-graph/d3-trajectory-graph.component.ts:287-293 | The two roundings compound. A 149.996 m step adds 0.2 km, but a single rounding to 0.1 km would give 0.1 km. |
| `Records.PrimaryLayout` | src/@helgoland/d3/src/d3-trajectory-graph/d3-trajectory-graph.component.ts:248-258 | The primary pass keeps one record per point in the window, in point order. Record `p` is the record of point `WindowStart + p`. The record count is the size of the window clipped to the series. |
| `Records.PrimaryTicks` | src/@helgoland/d3/src/d3-trajectory-graph/d3-trajectory-graph.component.ts:248-293 | Every primary record lies in the window and keeps its original index as its tick. Its distance is measured from the start of the path, including steps between filtered-out points. |
| `Records.ProcessSeries` | src/@helgoland/d3/src/d3-trajectory-graph/d3-trajectory-graph.component.ts:243-274 | Definition of the `forEach` of `processDataForId`: the primary pass into an empty table, the merge pass otherwise; its contracts are `Records.PrimaryLayout`, `Records.PrimaryTicks` and `Records.MergedKeeps`. |
| `Records.MergedKeeps` | src/@helgoland/d3/src/d3-trajectory-graph/d3-trajectory-graph.component.ts:260-270 | A secondary pass keeps the record count and every field except the columns. It changes no other series' column. It sets its own column exactly at positions `idx - from` (or `idx`) of in-window points that exist, to that point's value. Every other record is left unchanged. The helper `Records.MergedAt` unfolds this at one position. |
| `Records.MergedIdempotent` | src/@helgoland/d3/src/d3-trajectory-graph/d3-trajectory-graph.component.ts:263-268 | Merging the same series again with the same points changes nothing, because values are overwritten, not appended. |
| `Records.MergedCommute` | src/@helgoland/d3/src/d3-trajectory-graph/d3-trajectory-graph.component.ts:260-270 | Secondary passes of two different series give the same table in either order. |
| `Records.ProcessedCount` | src/@helgoland/d3/src/d3-trajectory-graph/d3-trajectory-graph.component.ts:238-248 | `processAllData` processes series up to, and not including, the first one without options or, when visible, without loaded data; every series before it has both. |
| `Records.Rebuild` | src/@helgoland/d3/src/d3-trajectory-graph/d3-trajectory-graph.component.ts:238-241 | Definition of `processAllData` over series that all get past the lookups; its contracts are `Records.RebuildShape`, `Records.RebuildTicks`, `Records.RebuildAlignsByTick` and `Records.RebuildKeysSorted`; the helper `Records.RebuildLast` unfolds it once. |
| `Records.PrimaryIndex` | src/@helgoland/d3/src/d3-trajectory-graph/d3-trajectory-graph.component.ts:244-258 | The primary series is the earliest visible series with a point in the window. No series before it qualifies. |
| `Records.RebuildShape` | src/@helgoland/d3/src/d3-trajectory-graph/d3-trajectory-graph.component.ts:238-274 | The rebuilt table is empty exactly when no series qualifies as primary. Otherwise, ignoring the value columns, it is what the primary pass of that series builds. |
| `Records.RebuildTicks` | src/@helgoland/d3/src/d3-trajectory-graph/d3-trajectory-graph.component.ts:246-270 | With no selection, or one starting at a non-negative index, record `p` has tick `p + from` (or `p`), inside the window. |
| `Records.RebuildAlignsByTick` | src/@helgoland/d3/src/d3-trajectory-graph/d3-trajectory-graph.component.ts:260-270 | Take any visible series after the primary one, and any record whose tick is an index of that series. The record's column for that series holds the value of the series' point at that tick. |
| `Records.RebuildPrefix` | src/@helgoland/d3/src/d3-trajectory-graph/d3-trajectory-graph.component.ts:238-270 | Dropping the last series, when it is not the primary one, keeps the primary series, and each record at the same position with a tick inside the window. |
| `Records.RebuildKeysSorted` | src/@helgoland/d3/src/d3-trajectory-graph/d3-trajectory-graph.component.ts:246-258 | The table is always sorted by tick. It is sorted by distance when no step length is negative, and by time when the timestamps of every listed series ascend. |
| `Axes.XValue` | src/@helgoland/d3/src/d3-trajectory-graph/d3-trajectory-graph.component.ts:322-333 | Definition of `getXValue`, also the bisector's key at lines 620-629; its contracts are `Axes.XDomain`, `Axes.ItemFor` and `Records.RebuildKeysSorted`. |
| `Axes.XDomain` | src/@helgoland/d3/src/d3-trajectory-graph/d3-trajectory-graph.component.ts:727-736 | The horizontal domain is the `getXValue` key of the first and the last record, for every axis type. An unmatched axis type uses ticks, in both. |
| `Axes.XDomainOrdered` | src/@helgoland/d3/src/d3-trajectory-graph/d3-trajectory-graph.component.ts:727-736 | On records sorted by key, the horizontal domain is not reversed. |
| `Axes.BisectLeft` | src/@helgoland/d3/src/d3-trajectory-graph/d3-trajectory-graph.component.ts:620-631 | Bisection of `[lo, hi]` returns an index in that range. When the key before `lo` is below the query and the key at `hi` is not, the key before the result is below the query and the key at it is not. |
| `Axes.ItemFor` | src/@helgoland/d3/src/d3-trajectory-graph/d3-trajectory-graph.component.ts:618-631 | The lookup returns an index in `[0, n]`, possibly `n`. The key before it is below the query, and the key at it is at least the query. |
| `Axes.ItemForSorted` | src/@helgoland/d3/src/d3-trajectory-graph/d3-trajectory-graph.component.ts:618-631 | On sorted keys, every key before the index is below the query and every key from it on is not. |
| `Axes.ItemForPastEnd` | src/@helgoland/d3/src/d3-trajectory-graph/d3-trajectory-graph.component.ts:618-631 | On sorted, non-empty keys, the lookup returns `n`, one past the last record, exactly when the query exceeds the last key. |
| `Axes.Extent` | src/@helgoland/d3/src/d3-trajectory-graph/d3-trajectory-graph.component.ts:635-637 | The extent is undefined exactly for no values. Otherwise both ends are values and every value lies between them. |
| `Axes.ColumnValuesMembers` | src/@helgoland/d3/src/d3-trajectory-graph/d3-trajectory-graph.component.ts:635-637 | The extent counts a value exactly when some record holds it, non-null, in the series' column. |
| `Axes.YDomain` | src/@helgoland/d3/src/d3-trajectory-graph/d3-trajectory-graph.component.ts:635-641 | The vertical domain is undefined exactly when the series has no value. Otherwise it is ordered and contains every value. It has zero width exactly when all values are equal, because no fallback is added. |
| `Axes.Domain` | src/@helgoland/d3/src/d3-trajectory-graph/d3-trajectory-graph.component.ts:638-640 | Definition of the widening in `drawYAxis`; its contracts are `Axes.DomainValue` and `Axes.YDomain`. |
| `Axes.ExtentIs` | src/@helgoland/d3/src/d3-trajectory-graph/d3-trajectory-graph.component.ts:635-637 | The extent of values whose least is `lo` and greatest is `hi` is `(lo, hi)`, in whatever order they come. |
| `Axes.DomainValue` | src/@helgoland/d3/src/d3-trajectory-graph/d3-trajectory-graph.component.ts:638-640 | The domain of values with least `lo` and greatest `hi` is `(lo - 0.1 (hi - lo), hi + 0.1 (hi - lo))`. |
| `Axes.YDomainValue` | src/@helgoland/d3/src/d3-trajectory-graph/d3-trajectory-graph.component.ts:635-641 | The vertical domain of a series whose least value is `lo` and greatest is `hi` ends at `lo - 0.1 (hi - lo)` and `hi + 0.1 (hi - lo)`. |
| `Axes.Pad` | src/@helgoland/d3/src/d3-trajectory-graph/d3-trajectory-graph.component.ts:659 | An axis takes its measured width, or 30 if that is more. |
| `Axes.AxisOffsetStep` | src/@helgoland/d3/src/d3-trajectory-graph/d3-trajectory-graph.component.ts:387-395 | Drawing an axis advances `bufferSum` by its padded width, except for the first axis. |
| `Axes.AxisOffsetGrows` | src/@helgoland/d3/src/d3-trajectory-graph/d3-trajectory-graph.component.ts:377-398 | After the first axis, offsets are non-negative and grow by at least 30 per axis. |
| `Axes.DrawnSeriesMembers` | src/@helgoland/d3/src/d3-trajectory-graph/d3-trajectory-graph.component.ts:381-382 | Only series that are visible, have options and have data get an axis; there are at most as many axes as series; no axis is drawn exactly when no series qualifies. |
| `Axes.DrawnSeriesHead` | src/@helgoland/d3/src/d3-trajectory-graph/d3-trajectory-graph.component.ts:381-392 | The first axis belongs to the earliest series in map order that is visible, has options and has data. |
| `Axes.DrawnSeriesSnoc` | src/@helgoland/d3/src/d3-trajectory-graph/d3-trajectory-graph.component.ts:381-382 | Each further series of the map gets an axis exactly when it is visible, has options and has data. |
| `Axes.PlansShape` | src/@helgoland/d3/src/d3-trajectory-graph/d3-trajectory-graph.component.ts:381-398 | There is one plan per drawn series. Exactly one plan, the earliest, is `first`. Offsets never decrease. Each axis is shifted at least 30 past its offset. |
| `Axes.PlansSnoc` | src/@helgoland/d3/src/d3-trajectory-graph/d3-trajectory-graph.component.ts:383-395 | One more drawn series appends one plan, with `first` when no scale exists yet, `offset = bufferSum` and `buffer = offset + max(w, 30)`. |
| `Axes.Stacked` | src/@helgoland/d3/src/d3-trajectory-graph/d3-trajectory-graph.component.ts:377-395 | Definition of the axis loop, one iteration per drawn series: a plan that is `first` exactly when `yScaleBase` is unset and takes `bufferSum` as offset; the first series sets `yScaleBase`, every later one moves `bufferSum` to its `buffer`. Its contract is `Axes.StackedPlans`. |
| `Axes.StackedPlans` | src/@helgoland/d3/src/d3-trajectory-graph/d3-trajectory-graph.component.ts:377-398 | The iterations add up to `Plans` of the drawn series; `bufferSum` ends as the padded widths of all axes but the first, and `yScaleBase` is the scale of the first drawn series, if there is one. |
| `Axes.PrepareRange` | src/@helgoland/d3/src/d3-trajectory-graph/d3-trajectory-graph.component.ts:499-504 | The range has `from <= to`, and its ends are the two arguments. |
| `TrajectoryGraph.Graph.constructor` | src/@helgoland/d3/src/d3-trajectory-graph/d3-trajectory-graph.component.ts:118-139 | The graph starts with an empty table, the distance axis, no vertical or horizontal scale and no drag in progress. |
| `TrajectoryGraph.Graph.ProcessDataForId` | src/@helgoland/d3/src/d3-trajectory-graph/d3-trajectory-graph.component.ts:243-274 | It throws exactly for a series without options, or a visible one without loaded data, and then leaves the table unchanged. Otherwise an invisible series leaves the table unchanged, and a visible one builds the primary records into an empty table, or merges into a non-empty one, as `ProcessSeries`. |
| `TrajectoryGraph.Graph.ProcessPoints` | src/@helgoland/d3/src/d3-trajectory-graph/d3-trajectory-graph.component.ts:247-273 | The loop over the points of a visible series leaves the table at `ProcessSeries` of the old table. |
| `TrajectoryGraph.Graph.ProcessAllData` | src/@helgoland/d3/src/d3-trajectory-graph/d3-trajectory-graph.component.ts:238-241 | The table becomes `Rebuild` of the series before the first one that throws, in order, and the call throws exactly when some series does. |
| `TrajectoryGraph.Graph.SelectionChanged` | src/@helgoland/d3/src/d3-trajectory-graph/d3-trajectory-graph.component.ts:142-148 | Setting a selection rebuilds the table for it as `ProcessAllData` does and, unless that throws, redraws as `DrawLineGraph` does: the axes are `Stacked` of the drawn series and, when one was drawn, `xScale` maps the horizontal domain of the new table onto `[bufferSum, width]`. Clearing the selection, a rebuild that throws or an empty table leave the axes and both scales as they were. |
| `TrajectoryGraph.Graph.DrawLineGraph` | src/@helgoland/d3/src/d3-trajectory-graph/d3-trajectory-graph.component.ts:367-410 | With an empty table nothing changes. Otherwise the axes are stacked as `StackAxes` states. When no axis was drawn the horizontal scale is left as it was; otherwise `drawXAxis` makes it the linear scale from `XDomain` of the table onto `[bufferSum, width]`, so the x axis starts where the last vertical axis ends. |
| `TrajectoryGraph.Graph.StackAxes` | src/@helgoland/d3/src/d3-trajectory-graph/d3-trajectory-graph.component.ts:377-398 | The loop over the series map leaves plans, `bufferSum` and `yScaleBase` at `Stacked` of the drawn series, which by `Axes.StackedPlans` means the plans are `Plans` of them, the final `bufferSum` is the padded widths of all but the first axis, and `yScaleBase` is the scale of the first drawn series, if any. |
| `TrajectoryGraph.Graph.ItemForX` | src/@helgoland/d3/src/d3-trajectory-graph/d3-trajectory-graph.component.ts:618-632 | With a horizontal scale set, the loop computes the bisection `ItemFor` over the whole table, for the pixel inverted through that scale. |
| `TrajectoryGraph.Graph.Hover` | src/@helgoland/d3/src/d3-trajectory-graph/d3-trajectory-graph.component.ts:462-470 | An empty table emits nothing. Otherwise the handler throws a `TypeError` exactly when there is no horizontal scale, when the lookup is past the end, or when some series of the series map has no options (read by `showLabelValues`, lines 555-566); else it emits the tick of the record found. |
| `TrajectoryGraph.Graph.DragRange` | src/@helgoland/d3/src/d3-trajectory-graph/d3-trajectory-graph.component.ts:490-492 | Definition of the two lookups and `prepareRange` of the drag handlers (also lines 511-513); `TrajectoryGraph.Graph.LookupRange`, `DragMove` and `DragEnd` are proved against it, and `Axes.PrepareRange` orders its ends. Without a horizontal scale it is a `TypeError`. |
| `TrajectoryGraph.Graph.LookupRange` | src/@helgoland/d3/src/d3-trajectory-graph/d3-trajectory-graph.component.ts:511-513 | Both lookups and `prepareRange` give `DragRange`: a `TypeError` when there is no horizontal scale or either lookup is past the end, else the ordered range of the two ticks. |
| `TrajectoryGraph.Graph.DragStart` | src/@helgoland/d3/src/d3-trajectory-graph/d3-trajectory-graph.component.ts:476-479 | A press records the start and clears `dragging`. |
| `TrajectoryGraph.Graph.DragMove` | src/@helgoland/d3/src/d3-trajectory-graph/d3-trajectory-graph.component.ts:481-513 | A move always sets `dragging`. Without a start it emits nothing. Otherwise it records the current position and emits the range from the start. |
| `TrajectoryGraph.Graph.DragEnd` | src/@helgoland/d3/src/d3-trajectory-graph/d3-trajectory-graph.component.ts:486-497 | Without a start or a move, a release emits `{0, dataLength}`. Otherwise it emits the dragged range. Every emitting release resets the start and `dragging`. A release whose lookup throws leaves them as they were. |

## Left out

- Drawing: every d3/SVG call, the dots and lines, the axes' pixel ranges, grid lines, focus labels, `showDiagramIndicator`, `getDimensions`. The widths these measure are inputs.
- Leaflet's great-circle `distanceTo` is a parameter. d3's `scaleLinear().invert` is the parameter `invert` applied to the scale in `xScale`, `calculateWidth` is the argument `width`, and `mouse()` positions are arguments. All of these are foreign floating-point code.
- Floating-point error: arithmetic is exact over `real`, so the model rounds exactly where JavaScript doubles may be off by an ulp.
- `drawLineGraph` returning early before the view exists (`!this.graph`): `DrawLineGraph` assumes the view is initialised.
- `loadData`, `addDataset`, `removeDataset`, `timeIntervalChanges`, `graphOptionsChanged`, `datasetOptionsChanged`, `ngAfterViewInit` and the API callbacks. These are asynchronous fetching and framework plumbing. `dataLength` and `data` are fields that these operations would set; `xScale` is set only by `DrawLineGraph` (through `drawXAxis`), as in the code; `drawLineGraph` is called by `ngOnChanges` (modelled as `SelectionChanged`), by these operations, and by `onResize`, which is `DrawLineGraph` with the new `width`.
- Time and label formatting (`moment`, `timeFormat`, `getXAxisLabel`), which is presentation only.
- The other files (time-range slider, OpenLayers and Leaflet controls, demo pages, modules, build configuration, tests). They are library wrappers or scaffolding.
- `TrajectoryGraph.Graph.ItemForX` takes no `data` argument, because the source ignores it and always searches `baseValues`.
- `Records.RebuildTicks` and `Records.RebuildAlignsByTick` assume that the selection does not start below 0. Ticks are never negative, so this always holds. With a negative `from`, the merge writes at shifted positions; the model computes that too, but the alignment does not hold.
- A series id equal to one of a record's own field names (`tick`, `dist`, ...) would overwrite that field in JavaScript. The model keeps the value columns apart from the fields.
- Color, unit-of-measure and the `datasetOptions` other than `visible` do not enter any computation, so they are not modelled.
