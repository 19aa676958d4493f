/** src/helpers/conversions.ts: turning shape resources into line features
    and a feed record into a vehicle point. Polyline decoding is a foreign
    library call; it is the parameter `decode`. */
module Conversions {
  import opened Wrappers
  import opened Types
  import Seqs

  /** `streamingEventToPoint`: a point at `[longitude, latitude]` carrying
      the record's id and five of its fields. */
  function StreamingEventToPoint(data: VehicleRecord): (p: PointFeature)
    ensures p.id == data.id
    ensures GeometryType(p.geometry) == "Point"
    ensures p.geometry.coordinates.0 == data.attributes.longitude
    ensures p.geometry.coordinates.1 == data.attributes.latitude
    ensures p.properties.currentStatus == data.attributes.currentStatus
    ensures p.properties.route == data.relationships.route.id
    ensures p.properties.bearing == data.attributes.bearing
    ensures p.properties.displayLabel == data.attributes.displayLabel
    ensures p.properties.speed == data.attributes.speed
  {
    PointFeature(
      data.id,
      PointGeometry((data.attributes.longitude, data.attributes.latitude)),
      VehicleProperties(
        data.attributes.bearing,
        data.attributes.currentStatus,
        data.attributes.displayLabel,
        data.relationships.route.id,
        data.attributes.speed))
  }

  /** The fields of a record that its point shows. */
  predicate SameShownFields(a: VehicleRecord, b: VehicleRecord) {
    && a.id == b.id
    && a.attributes.longitude == b.attributes.longitude
    && a.attributes.latitude == b.attributes.latitude
    && a.attributes.bearing == b.attributes.bearing
    && a.attributes.currentStatus == b.attributes.currentStatus
    && a.attributes.displayLabel == b.attributes.displayLabel
    && a.attributes.speed == b.attributes.speed
    && a.relationships.route.id == b.relationships.route.id
  }

  /** A point keeps exactly the shown fields: two records give the same point
      if and only if they agree on them (stop, trip, direction, stop sequence,
      update time, links and type are dropped). */
  lemma PointKeepsExactlyShownFields(a: VehicleRecord, b: VehicleRecord)
    ensures StreamingEventToPoint(a) == StreamingEventToPoint(b) <==> SameShownFields(a, b)
  {
  }

  /** One shape as a line feature with properties `{id, links, mbtaType}`. */
  function ShapeToLine(decode: string -> seq<Position>, shape: Shape): LineFeature {
    LineFeature(
      LineStringGeometry(decode(shape.polyline)),
      ShapeProperties(Some(shape.id), shape.links, Some(shape.kind), None))
  }

  /** `shapesToFeatureCollection`: one line per shape, in input order, each
      along the decoding of that shape's polyline. */
  function ShapesToFeatureCollection(shapes: seq<Shape>, decode: string -> seq<Position>): (r: seq<LineFeature>)
    ensures |r| == |shapes|
    ensures forall i :: 0 <= i < |r| ==> r[i].geometry == LineStringGeometry(decode(shapes[i].polyline))
    ensures forall i :: 0 <= i < |r| ==>
      r[i].properties == ShapeProperties(Some(shapes[i].id), shapes[i].links, Some(shapes[i].kind), None)
  {
    Seqs.Map(shapes, (shape: Shape) => ShapeToLine(decode, shape))
  }
}
