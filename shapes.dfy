/**
 * The drawable shape variants and the collaborators that the renderer calls
 * but whose definitions live elsewhere.
 */
module Shapes {
  import opened MapData

  datatype GeoFeatureType = Forest | Plain | Water | Residential

  datatype ShapeKind =
    | Border
    | PopulatedPlace
    | Road
    | Waterway(isPolygon: bool)
    | Railway
    | GeoFeature(geoType: GeoFeatureType)

  datatype ScreenPoint = ScreenPoint(x: real, y: real)

  /** A shape as built by its constructor: its variant, its unscaled screen coordinates and its z-index. */
  datatype BaseShape = BaseShape(kind: ShapeKind, screenCoordinates: seq<ScreenPoint>, zIndex: int)

  /**
   * What the renderer takes from code outside it:
   * `shouldBeBorder` and `shouldBePopulatedPlace` are the two structural predicates,
   * `highwayTypes` the accepted highway-type prefixes, `naturalType` the GeoFeature
   * subtype derived from a Natural feature, `zIndex` the fixed z-index of each variant
   * and `project` the screen projection a shape constructor performs.
   */
  datatype Collaborators = Collaborators(
    shouldBeBorder: Feature -> bool,
    shouldBePopulatedPlace: Feature -> bool,
    highwayTypes: seq<string>,
    naturalType: Feature -> GeoFeatureType,
    zIndex: ShapeKind -> int,
    project: (ShapeKind, Feature) -> seq<ScreenPoint>)

  /** The shape of variant `kind` built from feature `f`. */
  function NewShape(env: Collaborators, f: Feature, kind: ShapeKind): BaseShape {
    BaseShape(kind, env.project(kind, f), env.zIndex(kind))
  }

  /** A shape with fewer than two screen coordinates cannot be drawn. */
  predicate Drawable(s: BaseShape) {
    |s.screenCoordinates| >= 2
  }
}
