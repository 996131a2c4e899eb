/**
 * The feature classification rule table as pure functions: the rule each tag
 * key selects, the left-to-right first-match scan over a feature's properties,
 * and the fixed precedence Border, then PopulatedPlace, then the scan.
 */
module Classification {
  import opened Options
  import opened MapData
  import opened Shapes

  /** Landuse values that give a Forest on any geometry. */
  const ForestPrefixes: seq<string> := ["forest", "orchard"]
  /** Landuse values that give a Residential area on a polygon. */
  const ResidentialPrefixes: seq<string> :=
    ["residential", "cemetery", "industrial", "commercial", "square",
     "construction", "military", "quarry", "brownfield"]
  /** Landuse values that give a Plain on a polygon. */
  const PlainPrefixes: seq<string> :=
    ["farm", "meadow", "grass", "greenfield", "recreation_ground", "winter_sports", "allotments"]
  /** Landuse values that give Water on a polygon. */
  const WaterPrefixes: seq<string> := ["reservoir", "basin"]

  /** The variants the property scan can produce: everything but the two predicate-driven ones. */
  predicate IsPropertyShape(k: ShapeKind) {
    !k.Border? && !k.PopulatedPlace?
  }

  /**
   * The rule keyed by one property's tag: the variant it yields when its key is
   * known and its guard holds, None when the scan must go on to the next property.
   */
  function PropertyRule(env: Collaborators, f: Feature, p: Property): (r: Option<ShapeKind>)
    ensures r.Some? ==> IsPropertyShape(r.value)
  {
    match p.key
    case Highway =>
      if StartsWithAny(p.value, env.highwayTypes) then Some(Road) else None
    case Water =>
      if f.geometry != Point then Some(Waterway(f.geometry == Polygon)) else None
    case Railway =>
      Some(ShapeKind.Railway)
    case Natural =>
      if f.geometry == Polygon then Some(GeoFeature(env.naturalType(f))) else None
    case Boundary =>
      if StartsWith(p.value, "forest") then Some(GeoFeature(Forest)) else None
    case Landuse =>
      if StartsWithAny(p.value, ForestPrefixes) then Some(GeoFeature(Forest))
      else if f.geometry != Polygon then None
      else if StartsWithAny(p.value, ResidentialPrefixes) then Some(GeoFeature(Residential))
      else if StartsWithAny(p.value, PlainPrefixes) then Some(GeoFeature(Plain))
      else if StartsWithAny(p.value, WaterPrefixes) then Some(GeoFeature(GeoFeatureType.Water))
      else None
    case Building =>
      if f.geometry == Polygon then Some(GeoFeature(Residential)) else None
    case Leisure =>
      if f.geometry == Polygon then Some(GeoFeature(Residential)) else None
    case Amenity =>
      if f.geometry == Polygon then Some(GeoFeature(Residential)) else None
    case Other(_) =>
      None
  }

  /** No property of `ps` has a rule that fires. */
  predicate AllFail(env: Collaborators, f: Feature, ps: seq<Property>) {
    forall j :: 0 <= j < |ps| ==> PropertyRule(env, f, ps[j]).None?
  }

  /** The left-to-right scan: the variant of the first property whose rule fires. */
  function FirstMatch(env: Collaborators, f: Feature, ps: seq<Property>): (r: Option<ShapeKind>)
    ensures r.Some? ==> IsPropertyShape(r.value)
    ensures r.None? <==> AllFail(env, f, ps)
  {
    if ps == [] then None
    else
      var k := PropertyRule(env, f, ps[0]);
      if k.Some? then k else FirstMatch(env, f, ps[1..])
  }

  /** The variant a feature becomes, if any. */
  function Classify(env: Collaborators, f: Feature): (r: Option<ShapeKind>)
    ensures r == Some(ShapeKind.Border) <==> env.shouldBeBorder(f)
    ensures r == Some(ShapeKind.PopulatedPlace) <==> !env.shouldBeBorder(f) && env.shouldBePopulatedPlace(f)
    ensures r.None? <==>
      !env.shouldBeBorder(f) && !env.shouldBePopulatedPlace(f) && AllFail(env, f, f.properties)
  {
    if env.shouldBeBorder(f) then Some(ShapeKind.Border)
    else if env.shouldBePopulatedPlace(f) then Some(ShapeKind.PopulatedPlace)
    else FirstMatch(env, f, f.properties)
  }

  /** The scan's result is the rule of the leftmost property whose rule fires. */
  lemma {:induction false} FirstMatchIsLeftmost(env: Collaborators, f: Feature, ps: seq<Property>, k: ShapeKind)
    ensures FirstMatch(env, f, ps) == Some(k) <==>
      exists i :: 0 <= i < |ps| && PropertyRule(env, f, ps[i]) == Some(k) && AllFail(env, f, ps[..i])
  {
    forall i | 0 <= i < |ps| && PropertyRule(env, f, ps[i]) == Some(k) && AllFail(env, f, ps[..i])
      ensures FirstMatch(env, f, ps) == Some(k)
    {
      FirstMatchAt(env, f, ps, i);
    }
    if ps != [] {
      FirstMatchIsLeftmost(env, f, ps[1..], k);
      if FirstMatch(env, f, ps) == Some(k) {
        if PropertyRule(env, f, ps[0]) == Some(k) {
          assert AllFail(env, f, ps[..0]);
        } else {
          var i :| 0 <= i < |ps[1..]| && PropertyRule(env, f, ps[1..][i]) == Some(k) && AllFail(env, f, ps[1..][..i]);
          assert ps[..i + 1] == [ps[0]] + ps[1..][..i];
          assert PropertyRule(env, f, ps[i + 1]) == Some(k) && AllFail(env, f, ps[..i + 1]);
        }
      }
    }
  }

  /** Scanning a concatenation: the left part decides if it matches, otherwise the right part does. */
  lemma {:induction false} FirstMatchAppend(env: Collaborators, f: Feature, a: seq<Property>, b: seq<Property>)
    ensures FirstMatch(env, f, a + b) ==
      if FirstMatch(env, f, a).Some? then FirstMatch(env, f, a) else FirstMatch(env, f, b)
  {
    if a == [] {
      assert a + b == b;
    } else {
      assert (a + b)[0] == a[0];
      assert (a + b)[1..] == a[1..] + b;
      FirstMatchAppend(env, f, a[1..], b);
    }
  }

  /** A property whose rule fires after only failing ones decides the scan. */
  lemma FirstMatchAt(env: Collaborators, f: Feature, ps: seq<Property>, i: nat)
    requires i < |ps| && AllFail(env, f, ps[..i])
    ensures PropertyRule(env, f, ps[i]).Some? ==> FirstMatch(env, f, ps) == PropertyRule(env, f, ps[i])
    ensures PropertyRule(env, f, ps[i]).None? ==> FirstMatch(env, f, ps) == FirstMatch(env, f, ps[i + 1..])
  {
    assert ps == ps[..i] + ([ps[i]] + ps[i + 1..]);
    FirstMatchAppend(env, f, ps[..i], [ps[i]] + ps[i + 1..]);
    FirstMatchAppend(env, f, [ps[i]], ps[i + 1..]);
  }

  /** The scan has reached property `i`: both predicates failed and every earlier rule failed. */
  predicate Reached(env: Collaborators, f: Feature, i: nat) {
    && !env.shouldBeBorder(f)
    && !env.shouldBePopulatedPlace(f)
    && i < |f.properties|
    && AllFail(env, f, f.properties[..i])
  }

  /**
   * At a reached property, a rule that fires decides the classification; a rule
   * that does not fire leaves it to the properties after it.
   */
  lemma ScanStep(env: Collaborators, f: Feature, i: nat)
    requires Reached(env, f, i)
    ensures PropertyRule(env, f, f.properties[i]).Some? ==>
      Classify(env, f) == PropertyRule(env, f, f.properties[i])
    ensures PropertyRule(env, f, f.properties[i]).None? ==>
      Classify(env, f) == FirstMatch(env, f, f.properties[i + 1..])
  {
    FirstMatchAt(env, f, f.properties, i);
  }

  /** Highway: a value starting with an accepted highway type gives a Road; otherwise the scan goes on. */
  lemma HighwayRuleAt(env: Collaborators, f: Feature, i: nat)
    requires Reached(env, f, i) && f.properties[i].key == Highway
    ensures StartsWithAny(f.properties[i].value, env.highwayTypes) ==> Classify(env, f) == Some(Road)
    ensures !StartsWithAny(f.properties[i].value, env.highwayTypes) ==>
      Classify(env, f) == FirstMatch(env, f, f.properties[i + 1..])
  {
    ScanStep(env, f, i);
  }

  /** Water: off Point geometry a Waterway flagged as polygon exactly on Polygon geometry; on a Point the scan goes on. */
  lemma WaterRuleAt(env: Collaborators, f: Feature, i: nat)
    requires Reached(env, f, i) && f.properties[i].key == Key.Water
    ensures f.geometry != Point ==> Classify(env, f) == Some(Waterway(f.geometry == Polygon))
    ensures f.geometry == Point ==> Classify(env, f) == FirstMatch(env, f, f.properties[i + 1..])
  {
    ScanStep(env, f, i);
  }

  /** Railway: always matches once reached. */
  lemma RailwayRuleAt(env: Collaborators, f: Feature, i: nat)
    requires Reached(env, f, i) && f.properties[i].key == Key.Railway
    ensures Classify(env, f) == Some(ShapeKind.Railway)
  {
    ScanStep(env, f, i);
  }

  /** Natural: on a Polygon the GeoFeature derived from the feature; otherwise the scan goes on. */
  lemma NaturalRuleAt(env: Collaborators, f: Feature, i: nat)
    requires Reached(env, f, i) && f.properties[i].key == Natural
    ensures f.geometry == Polygon ==> Classify(env, f) == Some(GeoFeature(env.naturalType(f)))
    ensures f.geometry != Polygon ==> Classify(env, f) == FirstMatch(env, f, f.properties[i + 1..])
  {
    ScanStep(env, f, i);
  }

  /** Boundary: only a value starting with "forest" matches, and it gives a Forest. */
  lemma BoundaryRuleAt(env: Collaborators, f: Feature, i: nat)
    requires Reached(env, f, i) && f.properties[i].key == Boundary
    ensures StartsWith(f.properties[i].value, "forest") ==> Classify(env, f) == Some(GeoFeature(Forest))
    ensures !StartsWith(f.properties[i].value, "forest") ==>
      Classify(env, f) == FirstMatch(env, f, f.properties[i + 1..])
  {
    ScanStep(env, f, i);
  }

  /**
   * Landuse: "forest"/"orchard" gives a Forest on any geometry; otherwise, on a
   * Polygon only, the residential, plain and water prefix groups are tried in that
   * order; any other case lets the scan go on.
   */
  lemma LanduseRuleAt(env: Collaborators, f: Feature, i: nat)
    requires Reached(env, f, i) && f.properties[i].key == Landuse
    ensures var v := f.properties[i].value;
      StartsWithAny(v, ForestPrefixes) ==> Classify(env, f) == Some(GeoFeature(Forest))
    ensures var v := f.properties[i].value;
      !StartsWithAny(v, ForestPrefixes) && f.geometry == Polygon && StartsWithAny(v, ResidentialPrefixes) ==>
        Classify(env, f) == Some(GeoFeature(Residential))
    ensures var v := f.properties[i].value;
      !StartsWithAny(v, ForestPrefixes) && f.geometry == Polygon && !StartsWithAny(v, ResidentialPrefixes)
      && StartsWithAny(v, PlainPrefixes) ==>
        Classify(env, f) == Some(GeoFeature(Plain))
    ensures var v := f.properties[i].value;
      !StartsWithAny(v, ForestPrefixes) && f.geometry == Polygon && !StartsWithAny(v, ResidentialPrefixes)
      && !StartsWithAny(v, PlainPrefixes) && StartsWithAny(v, WaterPrefixes) ==>
        Classify(env, f) == Some(GeoFeature(GeoFeatureType.Water))
    ensures var v := f.properties[i].value;
      !StartsWithAny(v, ForestPrefixes)
      && (f.geometry != Polygon
          || (!StartsWithAny(v, ResidentialPrefixes) && !StartsWithAny(v, PlainPrefixes)
              && !StartsWithAny(v, WaterPrefixes))) ==>
        Classify(env, f) == FirstMatch(env, f, f.properties[i + 1..])
  {
    ScanStep(env, f, i);
  }

  /** Building, Leisure and Amenity: a Residential area on a Polygon; otherwise the scan goes on. */
  lemma PolygonOnlyRuleAt(env: Collaborators, f: Feature, i: nat)
    requires Reached(env, f, i)
    requires f.properties[i].key in {Building, Leisure, Amenity}
    ensures f.geometry == Polygon ==> Classify(env, f) == Some(GeoFeature(Residential))
    ensures f.geometry != Polygon ==> Classify(env, f) == FirstMatch(env, f, f.properties[i + 1..])
  {
    ScanStep(env, f, i);
  }

  /** A key the table does not name is ignored and the scan goes on. */
  lemma OtherKeyRuleAt(env: Collaborators, f: Feature, i: nat)
    requires Reached(env, f, i) && f.properties[i].key.Other?
    ensures Classify(env, f) == FirstMatch(env, f, f.properties[i + 1..])
  {
    ScanStep(env, f, i);
  }

  /** A Polygon tagged only landuse=forest_reserve is a Forest. */
  lemma ForestReserveIsForest(env: Collaborators, f: Feature)
    requires !env.shouldBeBorder(f) && !env.shouldBePopulatedPlace(f)
    requires f.geometry == Polygon && f.properties == [Property(Landuse, "forest_reserve")]
    ensures Classify(env, f) == Some(GeoFeature(Forest))
  {
    assert StartsWith("forest_reserve", "forest");
    assert "forest" in ForestPrefixes;
  }

  /** A Polygon tagged only building=yes is a Residential area. */
  lemma BuildingPolygonIsResidential(env: Collaborators, f: Feature)
    requires !env.shouldBeBorder(f) && !env.shouldBePopulatedPlace(f)
    requires f.geometry == Polygon && f.properties == [Property(Building, "yes")]
    ensures Classify(env, f) == Some(GeoFeature(Residential))
  {
  }

  /** A Line tagged only highway=motorway is a Road when "motorway" is an accepted highway type. */
  lemma MotorwayLineIsRoad(env: Collaborators, f: Feature)
    requires !env.shouldBeBorder(f) && !env.shouldBePopulatedPlace(f)
    requires "motorway" in env.highwayTypes
    requires f.geometry == Line && f.properties == [Property(Highway, "motorway")]
    ensures Classify(env, f) == Some(Road)
  {
    assert StartsWith("motorway", "motorway");
  }

  /** A Point tagged only water=lake produces no shape. */
  lemma WaterPointIsNothing(env: Collaborators, f: Feature)
    requires !env.shouldBeBorder(f) && !env.shouldBePopulatedPlace(f)
    requires f.geometry == Point && f.properties == [Property(Key.Water, "lake")]
    ensures Classify(env, f) == None
  {
  }
}
