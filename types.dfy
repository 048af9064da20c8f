/** Values shared by the trajectory graph model: observations as delivered by the
    data API, the per-point records the graph plots, and the graph's options. */
module TrajectoryTypes {

  datatype Option<T> = None | Some(value: T)

  /** The internal id of a dataset (series); it also names a record's value column. */
  type SeriesId = string

  /** A position in degrees, as Leaflet's `LatLng` built from a GeoJSON point
      (`coordinates[1]` is the latitude, `coordinates[0]` the longitude). */
  datatype LatLng = LatLng(lat: real, lng: real)

  /** One located observation of a series (`LocatedTimeValueEntry`); `value` is
      `None` where the API delivers `null`. */
  datatype Observation = Observation(timestamp: int, value: Option<real>, position: LatLng)

  /** One plotted point (`DataEntry`). `tick` is the index of the point in the
      primary series, `dist` the path length from the first point in kilometres,
      `columns` the `[internalId]` slots, one per series merged into the record. */
  datatype Record = Record(
    tick: nat,
    dist: real,
    timestamp: int,
    value: Option<real>,
    position: LatLng,
    columns: map<SeriesId, Option<real>>)

  /** The selected window of point indices, both ends inclusive (`D3SelectionRange`). */
  datatype SelectionRange = SelectionRange(from: int, to: int)

  /** The key of the horizontal axis (`D3AxisType`). `Unspecified` stands for an
      options object whose `axisType` matches none of the three cases, which the
      source's `switch` statements send to their `default` branch. */
  datatype AxisType = Distance | Time | Ticks | Unspecified
}
