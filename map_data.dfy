/**
 * The decoded map-feature record that the renderer consumes: a geometry type,
 * the geographic coordinates in outline order, and the tags in their given order.
 */
module MapData {
  datatype GeometryType = Point | Line | Polygon

  /** Tag keys the rule table names; `Other` stands for every remaining key. */
  datatype Key =
    | Highway | Water | Railway | Natural | Boundary | Landuse
    | Building | Leisure | Amenity
    | Other(code: nat)

  datatype Property = Property(key: Key, value: string)

  datatype Coordinate = Coordinate(latitude: real, longitude: real)

  /**
   * A feature record. `id` and `name` (the label) are never read by the rule table; they
   * are there for the collaborators, which receive the whole record.
   */
  datatype Feature = Feature(
    id: int,
    name: string,
    geometry: GeometryType,
    coordinates: seq<Coordinate>,
    properties: seq<Property>)

  /** Ordinal prefix test, the model of `string.StartsWith(string)`. */
  predicate StartsWith(s: string, prefix: string) {
    |prefix| <= |s| && s[..|prefix|] == prefix
  }

  /** Some element of `prefixes` is a prefix of `s`. */
  predicate StartsWithAny(s: string, prefixes: seq<string>) {
    exists v :: v in prefixes && StartsWith(s, v)
  }
}
