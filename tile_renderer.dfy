/**
 * The tile renderer: Tessellate classifies one feature, enqueues its shape and
 * grows the shared bounding box; Render drains the queue in priority order and
 * hands every drawable shape to drawing.
 */
module TileRenderer {
  import opened Options
  import opened MapData
  import opened Shapes
  import opened Classification
  import opened BoundingBoxes
  import opened DrawQueue

  /** The shape built for a classification outcome. */
  function ShapeFor(env: Collaborators, f: Feature, k: Option<ShapeKind>): Option<BaseShape> {
    match k
    case None => None
    case Some(kind) => Some(NewShape(env, f, kind))
  }

  /** What a call adds to the queue: its shape under the shape's own z-index, or nothing. */
  function Enqueued(r: Option<BaseShape>): multiset<Entry> {
    match r
    case None => multiset{}
    case Some(s) => multiset{Entry(s, s.zIndex)}
  }

  /**
   * Classifies `f` by Border, then PopulatedPlace, then a scan of its properties
   * that stops at the first rule that fires; enqueues the shape, if any, under its
   * z-index and extends `boundingBox` by the shape's screen coordinates.
   */
  method Tessellate(env: Collaborators, f: Feature, boundingBox: BoundingBox, shapes: ShapeQueue)
    returns (baseShape: Option<BaseShape>)
    modifies boundingBox, shapes
    ensures baseShape == ShapeFor(env, f, Classify(env, f))
    ensures shapes.Contents() == old(shapes.Contents()) + Enqueued(baseShape)
    ensures baseShape.None? ==> boundingBox.Value() == old(boundingBox.Value())
    ensures baseShape.Some? ==>
      boundingBox.Value() == Extended(old(boundingBox.Value()), baseShape.value.screenCoordinates)
  {
    baseShape := None;
    if env.shouldBeBorder(f) {
      var border := NewShape(env, f, ShapeKind.Border);
      baseShape := Some(border);
      shapes.Enqueue(border, border.zIndex);
    } else if env.shouldBePopulatedPlace(f) {
      var popPlace := NewShape(env, f, ShapeKind.PopulatedPlace);
      baseShape := Some(popPlace);
      shapes.Enqueue(popPlace, popPlace.zIndex);
    } else {
      baseShape := ScanProperties(env, f, shapes);
    }
    if baseShape.Some? {
      boundingBox.Extend(baseShape.value.screenCoordinates);
    }
  }

  /**
   * The property scan: visits the properties in order, guarded by the `exit`
   * flag, and stops after the first one whose rule fires.
   */
  method ScanProperties(env: Collaborators, f: Feature, shapes: ShapeQueue) returns (baseShape: Option<BaseShape>)
    modifies shapes
    ensures baseShape == ShapeFor(env, f, FirstMatch(env, f, f.properties))
    ensures shapes.Contents() == old(shapes.Contents()) + Enqueued(baseShape)
  {
    var ps := f.properties;
    baseShape := None;
    var exit := false;
    var i := 0;
    while i < |ps|
      invariant 0 <= i <= |ps|
      invariant exit <==> baseShape.Some?
      invariant baseShape == ShapeFor(env, f, FirstMatch(env, f, ps[..i]))
      invariant shapes.Contents() == old(shapes.Contents()) + Enqueued(baseShape)
    {
      if exit {
        break;
      }
      var property := ps[i];
      var matched := TessellateProperty(env, f, property, shapes);
      if matched.Some? {
        exit := true;
        baseShape := matched;
      }
      assert ps[..i + 1] == ps[..i] + [property];
      FirstMatchAppend(env, f, ps[..i], [property]);
      i := i + 1;
    }
    assert ps == ps[..i] + ps[i..];
    FirstMatchAppend(env, f, ps[..i], ps[i..]);
  }

  /**
   * The switch on one property's key: when the key's rule fires, builds and
   * enqueues its shape and returns it; otherwise changes nothing.
   */
  method TessellateProperty(env: Collaborators, f: Feature, property: Property, shapes: ShapeQueue)
    returns (matched: Option<BaseShape>)
    modifies shapes
    ensures matched == ShapeFor(env, f, PropertyRule(env, f, property))
    ensures shapes.Contents() == old(shapes.Contents()) + Enqueued(matched)
  {
    matched := None;
    ForestPrefixesAreTheTwoTests(property.value);
    match property.key {
      case Highway =>
        if StartsWithAny(property.value, env.highwayTypes) {
          var road := NewShape(env, f, Road);
          matched := Some(road);
          shapes.Enqueue(road, road.zIndex);
        }
      case Water =>
        if f.geometry != Point {
          var waterway := NewShape(env, f, Waterway(f.geometry == Polygon));
          matched := Some(waterway);
          shapes.Enqueue(waterway, waterway.zIndex);
        }
      case Railway =>
        var railway := NewShape(env, f, ShapeKind.Railway);
        matched := Some(railway);
        shapes.Enqueue(railway, railway.zIndex);
      case Natural =>
        if f.geometry == Polygon {
          var geoFeature := NewShape(env, f, GeoFeature(env.naturalType(f)));
          matched := Some(geoFeature);
          shapes.Enqueue(geoFeature, geoFeature.zIndex);
        }
      case Boundary =>
        if StartsWith(property.value, "forest") {
          var geoFeature := NewShape(env, f, GeoFeature(Forest));
          matched := Some(geoFeature);
          shapes.Enqueue(geoFeature, geoFeature.zIndex);
        }
      case Landuse =>
        if StartsWith(property.value, "forest") || StartsWith(property.value, "orchard") {
          var geoFeature := NewShape(env, f, GeoFeature(Forest));
          matched := Some(geoFeature);
          shapes.Enqueue(geoFeature, geoFeature.zIndex);
        } else if f.geometry == Polygon {
          if StartsWithAny(property.value, ResidentialPrefixes) {
            var geoFeature := NewShape(env, f, GeoFeature(Residential));
            matched := Some(geoFeature);
            shapes.Enqueue(geoFeature, geoFeature.zIndex);
          } else if StartsWithAny(property.value, PlainPrefixes) {
            var geoFeature := NewShape(env, f, GeoFeature(Plain));
            matched := Some(geoFeature);
            shapes.Enqueue(geoFeature, geoFeature.zIndex);
          } else if StartsWithAny(property.value, WaterPrefixes) {
            var geoFeature := NewShape(env, f, GeoFeature(GeoFeatureType.Water));
            matched := Some(geoFeature);
            shapes.Enqueue(geoFeature, geoFeature.zIndex);
          }
        }
      case Building =>
        if f.geometry == Polygon {
          var geoFeature := NewShape(env, f, GeoFeature(Residential));
          matched := Some(geoFeature);
          shapes.Enqueue(geoFeature, geoFeature.zIndex);
        }
      case Leisure =>
        if f.geometry == Polygon {
          var geoFeature := NewShape(env, f, GeoFeature(Residential));
          matched := Some(geoFeature);
          shapes.Enqueue(geoFeature, geoFeature.zIndex);
        }
      case Amenity =>
        if f.geometry == Polygon {
          var geoFeature := NewShape(env, f, GeoFeature(Residential));
          matched := Some(geoFeature);
          shapes.Enqueue(geoFeature, geoFeature.zIndex);
        }
      case Other(_) =>
    }
  }

  /** The Landuse case's two StartsWith tests (forest, orchard) agree with StartsWithAny over ForestPrefixes. */
  lemma ForestPrefixesAreTheTwoTests(v: string)
    ensures StartsWithAny(v, ForestPrefixes) <==> StartsWith(v, "forest") || StartsWith(v, "orchard")
  {
    if StartsWith(v, "forest") {
      assert "forest" in ForestPrefixes;
    }
    if StartsWith(v, "orchard") {
      assert "orchard" in ForestPrefixes;
    }
  }

  /** Entries in nondecreasing priority order. */
  predicate Sorted(s: seq<Entry>) {
    forall i, j :: 0 <= i < j < |s| ==> s[i].priority <= s[j].priority
  }

  /** The entries of a dequeue order that reach drawing: those whose shape is drawable, in order. */
  function DrawnOf(visited: seq<Entry>): (drawn: seq<Entry>)
    ensures |drawn| <= |visited|
    ensures forall e :: e in drawn ==> Drawable(e.shape) && e in visited
    decreases |visited|
  {
    if visited == [] then []
    else
      var last := visited[|visited| - 1];
      DrawnOf(visited[..|visited| - 1]) + if Drawable(last.shape) then [last] else []
  }

  lemma DrawnOfSnoc(visited: seq<Entry>, e: Entry)
    ensures DrawnOf(visited + [e]) == DrawnOf(visited) + if Drawable(e.shape) then [e] else []
  {
    assert (visited + [e])[..|visited|] == visited;
  }

  lemma SortedSnoc(s: seq<Entry>, e: Entry)
    requires Sorted(s)
    requires s != [] ==> s[|s| - 1].priority <= e.priority
    ensures Sorted(s + [e])
  {
  }

  /** Painter's order: of two entries, the one of strictly lower priority comes first. */
  predicate DrawnBefore(s: seq<Entry>) {
    forall i, j :: 0 <= i < |s| && 0 <= j < |s| && s[i].priority < s[j].priority ==> i < j
  }

  lemma SortedDrawsLowerFirst(s: seq<Entry>)
    requires Sorted(s)
    ensures DrawnBefore(s)
  {
  }

  /** Dropping undrawable entries keeps a priority order. */
  lemma {:induction false} DrawnOfSorted(visited: seq<Entry>)
    requires Sorted(visited)
    ensures Sorted(DrawnOf(visited))
    decreases |visited|
  {
    if visited != [] {
      var init := visited[..|visited| - 1];
      assert Sorted(init);
      DrawnOfSorted(init);
      forall e | e in DrawnOf(init)
        ensures e.priority <= visited[|visited| - 1].priority
      {
        var k :| 0 <= k < |init| && init[k] == e;
      }
    }
  }

  /** Each entry reaches drawing as often as it was dequeued if it is drawable, and never otherwise. */
  lemma {:induction false} DrawnOfCount(visited: seq<Entry>, e: Entry)
    ensures multiset(DrawnOf(visited))[e] == if Drawable(e.shape) then multiset(visited)[e] else 0
    decreases |visited|
  {
    if visited != [] {
      var init := visited[..|visited| - 1];
      assert visited == init + [visited[|visited| - 1]];
      DrawnOfCount(init, e);
    }
  }

  /**
   * Drains the queue: dequeues a minimum-priority entry until none is left,
   * skips every shape with fewer than two screen coordinates and draws the rest.
   * The result is the trace of drawn entries.
   */
  method Render(shapes: ShapeQueue) returns (drawn: seq<Entry>)
    modifies shapes
    ensures shapes.Contents() == multiset{}
    ensures Sorted(drawn)
    ensures DrawnBefore(drawn)
    ensures forall e :: multiset(drawn)[e] == if Drawable(e.shape) then old(shapes.Contents())[e] else 0
  {
    drawn := [];
    ghost var visited: seq<Entry> := [];
    while shapes.Count() > 0
      invariant multiset(visited) + shapes.Contents() == old(shapes.Contents())
      invariant Sorted(visited)
      invariant visited != [] ==>
        forall x :: x in shapes.Contents() ==> visited[|visited| - 1].priority <= x.priority
      invariant drawn == DrawnOf(visited)
      decreases shapes.Count()
    {
      var entry := shapes.Dequeue();
      DrawnOfSnoc(visited, entry);
      SortedSnoc(visited, entry);
      visited := visited + [entry];
      if |entry.shape.screenCoordinates| < 2 {
        continue;
      }
      drawn := drawn + [entry];
    }
    DrawnOfSorted(visited);
    SortedDrawsLowerFirst(drawn);
    forall e
      ensures multiset(drawn)[e] == if Drawable(e.shape) then old(shapes.Contents())[e] else 0
    {
      DrawnOfCount(visited, e);
    }
  }
}
