# Tile renderer core: feature classification and painter's-order compositing

This project models the core of the map tile renderer in `Rendering/TileRenderer/TileRenderer.cs`:

- **`Tessellate`** classifies one decoded map feature. The precedence is fixed:
  - the Border predicate first;
  - then the PopulatedPlace predicate;
  - then a left-to-right scan of the feature's `(key, value)` tags, controlled by an `exit` flag.

  The first property whose key rule fires and whose guard holds decides the variant. A property with a known key whose guard fails, or with an unknown key, lets the scan go on. The chosen shape is enqueued under its z-index, and the shared bounding box is widened to cover the shape's unscaled screen coordinates.
- **`Render`** drains the priority queue one minimum-priority entry at a time. It skips shapes with fewer than two screen coordinates and hands the rest to drawing. Drawing is modelled as a trace of drawn entries.

Modules, leaf first:

- `Options`: `Option`, used for the nullable shape that `Tessellate` returns.
- `MapData`: the feature record (geometry type, coordinates, ordered tags) and the ordinal prefix test.
- `Shapes`: the shape variants and the `Collaborators` record. That record holds everything the renderer calls but does not define:
  - `Border.ShouldBeBorder` and `PopulatedPlace.ShouldBePopulatedPlace`;
  - `MapFeature.HighwayTypes`;
  - the GeoFeature subtype derived from a Natural feature;
  - each variant's fixed `ZIndex`;
  - the screen projection done by a shape's constructor.

  All of these are total functions given as inputs.
- `Classification`: the rule table as pure functions.
  - `PropertyRule` is the switch on one tag.
  - `FirstMatch` is the first-match scan.
  - `Classify` applies the precedence.
  - The lemmas state first-match-wins, continue-on-failed-guard and each key's dispatch.
- `BoundingBoxes`: the extent value, the point-by-point extension `Extended`, and the mutable `BoundingBox` class (the `ref` struct of the source).
- `DrawQueue`: the .NET `PriorityQueue<BaseShape,int>` as a class whose abstract value is a multiset of `(shape, priority)` entries. It supports insertion and extraction of some minimum-priority entry.
- `TileRenderer`: the imperative `Tessellate` (with its scan loop and per-key switch) and `Render`. Each is proved against the pure functions above.

Coordinates are `real`: the `float` fields and `Math.Min`/`Math.Max` are modelled over exact reals.

## Model

| member | source | states |
|---|---|---|
| `Classification.PropertyRule` | Rendering/TileRenderer/TileRenderer.cs:44-180 | no tag rule ever produces a Border or a PopulatedPlace |
| `Classification.FirstMatch` | Rendering/TileRenderer/TileRenderer.cs:36-181 | the scan yields no shape exactly when every property's rule fails, and it never yields Border or PopulatedPlace |
| `Classification.Classify` | Rendering/TileRenderer/TileRenderer.cs:18-181 | Border exactly when the Border predicate holds; PopulatedPlace exactly when Border fails and PopulatedPlace holds; no shape exactly when both predicates fail and no property's rule fires |
| `Classification.FirstMatchIsLeftmost` | Rendering/TileRenderer/TileRenderer.cs:36-181 | the scan returns variant k if and only if some property yields k and every property before it fails (first match wins) |
| `Classification.FirstMatchAppend` | Rendering/TileRenderer/TileRenderer.cs:36-40 | once a prefix of the properties matches, later properties are never consulted; a prefix that fails passes the decision to the rest |
| `Classification.FirstMatchAt` | Rendering/TileRenderer/TileRenderer.cs:36-181 | a property reached after only failing ones decides the scan if its rule fires, and otherwise the scan continues with the properties after it |
| `Classification.ScanStep` | Rendering/TileRenderer/TileRenderer.cs:25-181 | with both predicates false and every earlier rule failing, a firing rule decides the classification and a failing one leaves it to the next properties |
| `Classification.HighwayRuleAt` | Rendering/TileRenderer/TileRenderer.cs:46-56 | a reached Highway tag gives a Road if its value starts with an accepted highway type; without such a prefix the scan continues |
| `Classification.WaterRuleAt` | Rendering/TileRenderer/TileRenderer.cs:57-68 | a reached Water tag on non-Point geometry gives a Waterway whose polygon flag is exactly "geometry is Polygon"; on a Point the scan continues |
| `Classification.RailwayRuleAt` | Rendering/TileRenderer/TileRenderer.cs:69-76 | a reached Railway tag always gives a Railway |
| `Classification.NaturalRuleAt` | Rendering/TileRenderer/TileRenderer.cs:77-87 | a reached Natural tag on a Polygon gives the GeoFeature derived from the feature; otherwise the scan continues |
| `Classification.BoundaryRuleAt` | Rendering/TileRenderer/TileRenderer.cs:88-98 | a reached Boundary tag gives a Forest exactly when its value starts with "forest"; otherwise the scan continues |
| `Classification.LanduseRuleAt` | Rendering/TileRenderer/TileRenderer.cs:99-143 | "forest"/"orchard" gives a Forest on any geometry; otherwise, on a Polygon only, the residential group gives Residential, then the farm/meadow group gives Plain, then reservoir/basin gives Water; any other case continues the scan |
| `Classification.PolygonOnlyRuleAt` | Rendering/TileRenderer/TileRenderer.cs:144-176 | a reached Building, Leisure or Amenity tag gives Residential on a Polygon; on any other geometry the scan continues |
| `Classification.OtherKeyRuleAt` | Rendering/TileRenderer/TileRenderer.cs:178-179 | a reached tag with a key outside the table is ignored and the scan continues |
| `Classification.ForestReserveIsForest` | Rendering/TileRenderer/TileRenderer.cs:99-107 | a Polygon tagged landuse=forest_reserve is a Forest |
| `Classification.BuildingPolygonIsResidential` | Rendering/TileRenderer/TileRenderer.cs:144-154 | a Polygon tagged building=yes is Residential |
| `Classification.MotorwayLineIsRoad` | Rendering/TileRenderer/TileRenderer.cs:46-56 | a Line tagged highway=motorway is a Road when "motorway" is an accepted highway type |
| `Classification.WaterPointIsNothing` | Rendering/TileRenderer/TileRenderer.cs:57-68 | a Point tagged only water=lake produces no shape |
| `BoundingBoxes.ExtendedIsTight` | Rendering/TileRenderer/TileRenderer.cs:185-191 | on each axis the new minimum is at most the old one and every point's coordinate, and equals one of them; the maximum likewise; so MinX/MinY never increase and MaxX/MaxY never decrease |
| `BoundingBoxes.ExtendedAppend` | Rendering/TileRenderer/TileRenderer.cs:183-192 | extending by one shape's points and then another's equals extending by all the points together, which is how the box accumulates over a tile's features |
| `BoundingBoxes.BoundingBox.constructor` | Rendering/TileRenderer/TileRenderer.cs:224-230 | the box holds the four given bounds |
| `BoundingBoxes.BoundingBox.Extend` | Rendering/TileRenderer/TileRenderer.cs:185-191 | the field-by-field min/max loop leaves the box equal to the old box extended by every point, in order |
| `DrawQueue.MinIndex` | Rendering/TileRenderer/TileRenderer.cs:211 | returns a valid position whose priority is no greater than any entry's |
| `DrawQueue.ShapeQueue.Count` | Rendering/TileRenderer/TileRenderer.cs:209 | the count is the number of entries held |
| `DrawQueue.ShapeQueue.Enqueue` | Rendering/TileRenderer/TileRenderer.cs:23 | the queue gains exactly the entry (shape, priority) |
| `DrawQueue.ShapeQueue.Dequeue` | Rendering/TileRenderer/TileRenderer.cs:211 | returns an entry of the queue whose priority is no greater than any other's and removes exactly that one entry; which of several equal-priority entries is left open |
| `TileRenderer.TessellateProperty` | Rendering/TileRenderer/TileRenderer.cs:44-180 | the switch returns the shape of the property's rule, or nothing, and enqueues exactly that shape under its z-index, or nothing |
| `TileRenderer.ScanProperties` | Rendering/TileRenderer/TileRenderer.cs:32-181 | the exit-flag loop returns the shape of the first property whose rule fires (the pure first-match scan) and enqueues exactly that one shape, or none when no rule fires |
| `TileRenderer.Tessellate` | Rendering/TileRenderer/TileRenderer.cs:11-196 | returns the shape of `Classify`'s variant or nothing; enqueues exactly that shape under its z-index or nothing; with no shape the box is unchanged, otherwise it is the old box extended by the shape's screen coordinates |
| `TileRenderer.DrawnOf` | Rendering/TileRenderer/TileRenderer.cs:213-218 | the drawn entries of a dequeue order are all drawable (two or more screen coordinates) and all come from that order |
| `TileRenderer.DrawnOfSorted` | Rendering/TileRenderer/TileRenderer.cs:209-219 | skipping degenerate shapes keeps a nondecreasing priority order |
| `TileRenderer.DrawnOfCount` | Rendering/TileRenderer/TileRenderer.cs:213-218 | each entry is drawn as many times as it was dequeued if its shape is drawable, and never otherwise |
| `TileRenderer.Render` | Rendering/TileRenderer/TileRenderer.cs:198-222 | leaves the queue empty; draws entries in nondecreasing priority, and a lower-priority shape always before a higher one; draws exactly the queued entries with at least two screen coordinates, as often as they were queued; a skipped shape causes no drawing |

## Left out

- Canvas creation, the white background `Fill`, `canvas.Mutate` and each shape's own `Render` are graphics-library calls. Drawing is modelled as appending the dequeued entry to the returned trace.
- The scale computation (`scaleX`, `scaleY`, `scale`) and `TranslateAndScale` are left out. They are floating-point divisions whose result is non-finite (IEEE infinity or NaN) when the box has zero width or height. The transform itself is defined in files that are not part of this model. For the same reason `Render` takes neither the bounding box nor the width and height.
- `TileRenderer.Render`: the trace records each drawn shape together with the priority it was dequeued under. It does not record its pixels.
- The bodies of `Border.ShouldBeBorder`, `PopulatedPlace.ShouldBePopulatedPlace` and `MapFeature.HighwayTypes` are not part of this model. Neither are the `ZIndex` values, GeoFeature's subtype derivation for Natural features, or the geographic-to-screen projection. They are the fields of `Shapes.Collaborators`; each one that reads a feature receives the whole record, identifier and label included, and every property is proved for all of their values.
- `Shapes.Collaborators.naturalType` returns one of the four GeoFeature subtypes that the renderer names (Forest, Plain, Water, Residential). Whether the GeoFeature constructor can derive any other subtype from a Natural feature is decided in code that is not part of this model; the model takes it to be one of these four.
- `string.StartsWith(string)` compares culture-sensitively in .NET. The model uses an ordinal prefix test.
- The internals of .NET `PriorityQueue<BaseShape,int>` (a heap) are not modelled. The queue is a sequence viewed as a multiset, with a linear scan for a minimum. Tie-breaking among equal priorities is deliberately left unspecified.
- `DrawQueue.ShapeQueue.Dequeue` requires a non-empty queue. .NET throws on an empty queue, and `Render` only dequeues while the count is positive.
- Float semantics (NaN, infinities, rounding in `Math.Min`/`Math.Max`) are not modelled: coordinates are exact reals. The sentinel extremes a caller puts into a fresh box are the arguments of the `BoundingBox` constructor.
- Memory-mapped decoding of feature records is upstream I/O and is not part of this model. The feature is a plain value. Its identifier and label are the uninterpreted fields `id` and `name`: the rule table ignores them, and only the collaborators (the two predicates, the Natural subtype derivation and the projection) may read them. Every contract is about one feature at a time.
- The callers that create one box and one queue per tile, tessellate every feature and then render are not part of this model. `BoundingBoxes.ExtendedAppend` is the fact that composes successive `Tessellate` calls.
