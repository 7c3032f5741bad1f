/** GeoJSON-like features as the tile decoder produces them. Coordinates are
    kept as raw JSON values: the service only inspects their shape, and every
    geometric computation on them is done by an external geometry kernel. */
module Geo {
  import opened Base
  import opened Json

  /** The `geometry.type` tag. Tags the service does not recognise are kept by name. */
  datatype GeomType =
    | Point
    | MultiPoint
    | Polygon
    | MultiPolygon
    | LineString
    | MultiLineString
    | OtherType(name: string)

  datatype Geometry = Geometry(kind: GeomType, coordinates: Value)

  /** A feature; `geometry` is `None` when the decoded feature has none. */
  datatype Feature = Feature(geometry: Option<Geometry>, properties: Props)

  predicate IsPolygonal(g: Geometry) {
    g.kind == Polygon || g.kind == MultiPolygon
  }

  /** `geometry?.type === 'Polygon' || geometry?.type === 'MultiPolygon'`. */
  predicate HasPolygonalGeometry(f: Feature) {
    f.geometry.Some? && IsPolygonal(f.geometry.value)
  }

  /** The same feature (properties and all) carrying another geometry:
      the `{ ...feature, geometry }` spread. */
  function WithGeometry(f: Feature, g: Geometry): (r: Feature)
    ensures r.properties == f.properties
    ensures r.geometry == Some(g)
  {
    f.(geometry := Some(g))
  }
}
