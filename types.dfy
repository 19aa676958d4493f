/** The records of the system (types.ts), as values. Numbers that are only
    copied from one record to another (coordinates, bearing, speed) are
    `real`; nothing in the model computes with them. */
module Types {
  import opened Wrappers

  /** The five connection states a stream reports. */
  datatype StreamStatus = Idle | Connecting | Open | Closed | Errored

  /** A GeoJSON position: the pair `[longitude, latitude]`, first element first. */
  type Position = (real, real)

  datatype Links = Links(self: string)

  /** A `{data: {id, type}}` relationship reference. */
  datatype Reference = Reference(id: string, kind: string)

  datatype VehicleAttributes = VehicleAttributes(
    bearing: real,
    currentStatus: string,
    currentStopSequence: int,
    directionId: int,
    displayLabel: string,
    latitude: real,
    longitude: real,
    speed: real,
    updatedAt: string)

  datatype VehicleRelationships = VehicleRelationships(route: Reference, stop: Reference, trip: Reference)

  /** One vehicle record of the live feed. */
  datatype VehicleRecord = VehicleRecord(
    attributes: VehicleAttributes,
    id: string,
    links: Links,
    relationships: VehicleRelationships,
    kind: string)

  /** The JSON value carried by one feed event: the array of a `reset`, the
      single record of an `add` or `update`, or the `{id, type}` of a `remove`. */
  datatype EventData =
    | Records(records: seq<VehicleRecord>)
    | Record(record: VehicleRecord)
    | Removed(id: string, kind: string)

  /** The `id` property of an event's JSON value; an array has none (`undefined`). */
  function EventDataId(d: EventData): Option<string> {
    match d
    case Records(_) => None
    case Record(r) => Some(r.id)
    case Removed(id, _) => Some(id)
  }

  /** A message from the worker to the page: `{type, payload}`. The last
      variant stands for any other `type` string. */
  datatype Message =
    | StatusMessage(status: StreamStatus)
    | DataMessage(eventType: string, data: EventData)
    | ErrorMessage(reason: string)
    | OtherMessage(kind: string)

  /** The two geometries the core builds. */
  datatype Geometry = PointGeometry(coordinates: Position) | LineStringGeometry(path: seq<Position>)

  function GeometryType(g: Geometry): string {
    match g
    case PointGeometry(_) => "Point"
    case LineStringGeometry(_) => "LineString"
  }

  /** The properties a vehicle point carries. */
  datatype VehicleProperties = VehicleProperties(
    bearing: real, currentStatus: string, displayLabel: string, route: string, speed: real)

  /** A GeoJSON point feature for one vehicle. */
  datatype PointFeature = PointFeature(id: string, geometry: Geometry, properties: VehicleProperties)

  /** The properties a shape line carries; `id` may be absent in a collection
      built elsewhere, `mbtaType` and `color` are set only by some builders. */
  datatype ShapeProperties = ShapeProperties(
    id: Option<string>, links: Links, mbtaType: Option<string>, color: Option<string>)

  /** A GeoJSON line feature for one shape. */
  datatype LineFeature = LineFeature(geometry: Geometry, properties: ShapeProperties)

  /** A shape resource: its encoded polyline and identity. */
  datatype Shape = Shape(polyline: string, id: string, links: Links, kind: string)

  /** A route resource; of its attributes only the colour is used. */
  datatype Route = Route(id: string, color: string, longName: string, links: Links, kind: string)

  /** A trip resource with the two relationships the map follows. */
  datatype Trip = Trip(id: string, routeId: string, shapeId: string, kind: string)

  datatype RoutePattern = RoutePattern(id: string, canonical: bool, name: string, routeId: string, kind: string)

  /** An element of a routes response's `included` array, by its `type` tag. */
  datatype IncludedItem = TripItem(trip: Trip) | ShapeItem(shape: Shape) | PatternItem(pattern: RoutePattern)

  /** The routes endpoint's answer: the routes and, when requested, the
      included related resources. */
  datatype RoutesResponse = RoutesResponse(data: seq<Route>, included: Option<seq<IncludedItem>>)

  /** One `key=value` pair of a URL query string, in append order. */
  datatype Param = Param(key: string, value: string)

  /** What a `fetch` answered: `ok`, the status code and the parsed body. */
  datatype Response<T> = Response(ok: bool, status: int, body: T)
}
