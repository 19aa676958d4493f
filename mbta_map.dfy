/** src/components/MBTAMap.tsx: the route-colour pass of `fetchRoutes`
    (prefix every colour with `#`, pick the trips and shapes out of the
    `included` resources, colour each shape after the route of its trip) and
    the light-preset choice of `onRender`. React state, the map object and
    the clock are modelled as the fields of `MapState` and as parameters. */
module MbtaMap {
  import opened Wrappers
  import opened Types
  import Seqs
  import Conversions

  // ---------------------------------------------------------------------
  // Route colours

  /** A route whose colour has been prefixed with `#`; nothing else changes. */
  function Prefixed(r: Route): (p: Route)
    ensures |p.color| == |r.color| + 1 && p.color[0] == '#' && p.color[1..] == r.color
    ensures p.(color := r.color) == r
  {
    r.(color := "#" + r.color)
  }

  /** The `forEach` that prefixes every parsed route's colour, in place. */
  method PrefixColors(routes: array<Route>)
    modifies routes
    ensures forall i :: 0 <= i < routes.Length ==> routes[i] == Prefixed(old(routes[i]))
  {
    for i := 0 to routes.Length
      invariant forall j :: 0 <= j < i ==> routes[j] == Prefixed(old(routes[j]))
      invariant forall j :: i <= j < routes.Length ==> routes[j] == old(routes[j])
    {
      routes[i] := Prefixed(routes[i]);
    }
  }

  // ---------------------------------------------------------------------
  // Included resources

  predicate IsTripItem(item: IncludedItem) {
    item.TripItem?
  }

  predicate IsShapeItem(item: IncludedItem) {
    item.ShapeItem?
  }

  /** The included items whose type is `trip`, in order. */
  function TripsOf(included: seq<IncludedItem>): (ts: seq<Trip>)
    ensures |ts| <= |included|
    ensures forall t :: t in ts <==> TripItem(t) in included
  {
    if included == [] then []
    else (if included[0].TripItem? then [included[0].trip] else []) + TripsOf(included[1..])
  }

  /** The included items whose type is `shape`, in order. */
  function ShapesOf(included: seq<IncludedItem>): (ss: seq<Shape>)
    ensures |ss| <= |included|
    ensures forall s :: s in ss <==> ShapeItem(s) in included
  {
    if included == [] then []
    else (if included[0].ShapeItem? then [included[0].shape] else []) + ShapesOf(included[1..])
  }

  /** The trips are exactly the `filter` of the included items by type, in
      their original order. */
  lemma {:induction false} TripsKeepOrder(included: seq<IncludedItem>)
    ensures Seqs.Map(TripsOf(included), (t: Trip) => TripItem(t)) == Seqs.Filter(included, IsTripItem)
  {
    if included != [] {
      TripsKeepOrder(included[1..]);
      var head := if included[0].TripItem? then [included[0].trip] else [];
      var rest := TripsOf(included[1..]);
      var m := Seqs.Map(head + rest, (t: Trip) => TripItem(t));
      assert m == Seqs.Map(head, (t: Trip) => TripItem(t)) + Seqs.Map(rest, (t: Trip) => TripItem(t));
      assert TripsOf(included) == head + rest;
      assert Seqs.Filter(included, IsTripItem)
          == (if IsTripItem(included[0]) then [included[0]] else []) + Seqs.Filter(included[1..], IsTripItem);
    }
  }

  lemma {:induction false} ShapesKeepOrder(included: seq<IncludedItem>)
    ensures Seqs.Map(ShapesOf(included), (s: Shape) => ShapeItem(s)) == Seqs.Filter(included, IsShapeItem)
  {
    if included != [] {
      ShapesKeepOrder(included[1..]);
      var head := if included[0].ShapeItem? then [included[0].shape] else [];
      var rest := ShapesOf(included[1..]);
      var m := Seqs.Map(head + rest, (s: Shape) => ShapeItem(s));
      assert m == Seqs.Map(head, (s: Shape) => ShapeItem(s)) + Seqs.Map(rest, (s: Shape) => ShapeItem(s));
      assert ShapesOf(included) == head + rest;
      assert Seqs.Filter(included, IsShapeItem)
          == (if IsShapeItem(included[0]) then [included[0]] else []) + Seqs.Filter(included[1..], IsShapeItem);
    }
  }

  // ---------------------------------------------------------------------
  // Colouring one shape

  /** How a template literal shows the shape id: an absent one reads `undefined`. */
  function ShapeIdText(id: Option<string>): string {
    match id
    case None => "undefined"
    case Some(s) => s
  }

  /** The message thrown for a shape no trip references (with the stray
      closing brace of the template). */
  function NoTripError(id: Option<string>): string {
    "No trip found for shape ID " + ShapeIdText(id) + "}"
  }

  /** A trip references the feature's shape: `trip.relationships.shape.data.id === shapeId`. */
  predicate References(t: Trip, f: LineFeature) {
    Some(t.shapeId) == f.properties.id
  }

  function TripFor(trips: seq<Trip>, f: LineFeature): Option<Trip> {
    Seqs.Find(trips, (t: Trip) => References(t, f))
  }

  function RouteFor(routes: seq<Route>, trip: Trip): Option<Route> {
    Seqs.Find(routes, (r: Route) => r.id == trip.routeId)
  }

  /** One step of the `forEach`: the first referencing trip, then the first
      route of that trip; the feature is coloured after that route, left as
      it was without one, and the whole pass throws without a trip. */
  function Annotated(trips: seq<Trip>, routes: seq<Route>, f: LineFeature): (r: Result<LineFeature, string>)
    ensures r.Failure? <==> forall i :: 0 <= i < |trips| ==> !References(trips[i], f)
    ensures r.Failure? ==> r.error == NoTripError(f.properties.id)
    ensures r.Success? ==>
      r.value.geometry == f.geometry && r.value.properties.(color := f.properties.color) == f.properties
  {
    match TripFor(trips, f)
    case None => Failure(NoTripError(f.properties.id))
    case Some(trip) =>
      match RouteFor(routes, trip)
      case None => Success(f)
      case Some(route) => Success(f.(properties := f.properties.(color := Some(route.color))))
  }

  /** Stated by indices: with trip `k` the first to reference the feature and
      route `m` the first with that trip's route id, the colour is route `m`'s. */
  lemma AnnotatedByFirstTripAndRoute(trips: seq<Trip>, routes: seq<Route>, f: LineFeature, k: int, m: int)
    requires 0 <= k < |trips| && References(trips[k], f)
    requires forall j :: 0 <= j < k ==> !References(trips[j], f)
    requires 0 <= m < |routes| && routes[m].id == trips[k].routeId
    requires forall j :: 0 <= j < m ==> routes[j].id != trips[k].routeId
    ensures Annotated(trips, routes, f) == Success(f.(properties := f.properties.(color := Some(routes[m].color))))
  {
    FindIsFirst(trips, (t: Trip) => References(t, f), k);
    FindIsFirst(routes, (r: Route) => r.id == trips[k].routeId, m);
  }

  /** With a referencing trip whose route is not among the routes, the
      feature is left exactly as it was. */
  lemma AnnotatedWithoutRoute(trips: seq<Trip>, routes: seq<Route>, f: LineFeature, k: int)
    requires 0 <= k < |trips| && References(trips[k], f)
    requires forall j :: 0 <= j < k ==> !References(trips[j], f)
    requires forall j :: 0 <= j < |routes| ==> routes[j].id != trips[k].routeId
    ensures Annotated(trips, routes, f) == Success(f)
  {
    FindIsFirst(trips, (t: Trip) => References(t, f), k);
  }

  /** `find` returns the element at the first index that satisfies `p`. */
  lemma FindIsFirst<T>(s: seq<T>, p: T -> bool, k: int)
    requires 0 <= k < |s| && p(s[k])
    requires forall j :: 0 <= j < k ==> !p(s[j])
    ensures Seqs.Find(s, p) == Some(s[k])
  {
    var r := Seqs.Find(s, p);
    var i :| 0 <= i < |s| && s[i] == r.value && p(s[i]) && forall j :: 0 <= j < i ==> !p(s[j]);
    assert !(i < k) && !(k < i);
  }

  // ---------------------------------------------------------------------
  // Colouring all shapes

  /** The features after the `forEach` and the error it threw, if any. */
  datatype Annotation = Annotation(features: seq<LineFeature>, error: Option<string>)

  /** The features are coloured front to back; at the first shape without a
      trip the pass stops, the earlier features keep their colour and the
      later ones are untouched. */
  function AnnotateAll(trips: seq<Trip>, routes: seq<Route>, fs: seq<LineFeature>): (a: Annotation)
    ensures |a.features| == |fs|
    decreases |fs|
  {
    if fs == [] then Annotation([], None)
    else
      match Annotated(trips, routes, fs[0])
      case Failure(e) => Annotation(fs, Some(e))
      case Success(g) =>
        var rest := AnnotateAll(trips, routes, fs[1..]);
        Annotation([g] + rest.features, rest.error)
  }

  /** Without a failing feature every feature is coloured and nothing is thrown. */
  lemma {:induction false} AnnotateAllSucceeds(trips: seq<Trip>, routes: seq<Route>, fs: seq<LineFeature>)
    requires forall i :: 0 <= i < |fs| ==> Annotated(trips, routes, fs[i]).Success?
    ensures AnnotateAll(trips, routes, fs).error == None
    ensures forall i :: 0 <= i < |fs| ==>
      AnnotateAll(trips, routes, fs).features[i] == Annotated(trips, routes, fs[i]).value
    decreases |fs|
  {
    if fs != [] {
      AnnotateAllSucceeds(trips, routes, fs[1..]);
      var a := AnnotateAll(trips, routes, fs);
      forall i | 0 <= i < |fs| ensures a.features[i] == Annotated(trips, routes, fs[i]).value {
        if i > 0 {
          assert fs[1..][i - 1] == fs[i];
        }
      }
    }
  }

  /** The first failing feature `k` decides the error; the features before it
      are coloured and it and those after it are left as they were. */
  lemma {:induction false} AnnotateAllStops(trips: seq<Trip>, routes: seq<Route>, fs: seq<LineFeature>, k: int)
    requires 0 <= k < |fs| && Annotated(trips, routes, fs[k]).Failure?
    requires forall i :: 0 <= i < k ==> Annotated(trips, routes, fs[i]).Success?
    ensures AnnotateAll(trips, routes, fs).error == Some(NoTripError(fs[k].properties.id))
    ensures AnnotateAll(trips, routes, fs).features[k..] == fs[k..]
    ensures forall i :: 0 <= i < k ==>
      AnnotateAll(trips, routes, fs).features[i] == Annotated(trips, routes, fs[i]).value
    decreases |fs|
  {
    if k > 0 {
      var tail := fs[1..];
      forall i | 0 <= i < k - 1 ensures Annotated(trips, routes, tail[i]).Success? {
        assert tail[i] == fs[i + 1];
      }
      AnnotateAllStops(trips, routes, tail, k - 1);
      var a := AnnotateAll(trips, routes, fs);
      var rest := AnnotateAll(trips, routes, tail);
      assert a.features == [Annotated(trips, routes, fs[0]).value] + rest.features;
      assert a.features[k..] == rest.features[k - 1..];
      forall i | 0 <= i < k ensures a.features[i] == Annotated(trips, routes, fs[i]).value {
        if i > 0 {
          assert tail[i - 1] == fs[i];
        }
      }
    }
  }

  /** The pass throws exactly when some feature has no referencing trip. */
  lemma {:induction false} AnnotateAllErrorIff(trips: seq<Trip>, routes: seq<Route>, fs: seq<LineFeature>)
    ensures AnnotateAll(trips, routes, fs).error.None?
        <==> forall i :: 0 <= i < |fs| ==> exists j :: 0 <= j < |trips| && References(trips[j], fs[i])
    decreases |fs|
  {
    if fs != [] {
      AnnotateAllErrorIff(trips, routes, fs[1..]);
      assert forall i :: 0 < i < |fs| ==> fs[1..][i - 1] == fs[i];
    }
  }

  /** The `forEach` over the feature array: each feature's properties are
      updated in place; the first shape without a trip throws. */
  method AnnotateFeatures(features: array<LineFeature>, trips: seq<Trip>, routes: seq<Route>)
    returns (error: Option<string>)
    modifies features
    ensures features[..] == AnnotateAll(trips, routes, old(features[..])).features
    ensures error == AnnotateAll(trips, routes, old(features[..])).error
  {
    ghost var fs := features[..];
    var i := 0;
    while i < features.Length
      invariant 0 <= i <= features.Length
      invariant forall j :: 0 <= j < i ==> Annotated(trips, routes, fs[j]) == Success(features[j])
      invariant forall j :: i <= j < features.Length ==> features[j] == fs[j]
    {
      var feature := features[i];
      var relatedTrip := TripFor(trips, feature);
      if relatedTrip.None? {
        AnnotateAllStops(trips, routes, fs, i);
        ghost var a := AnnotateAll(trips, routes, fs);
        forall j | i <= j < features.Length ensures features[j] == a.features[j] {
          assert a.features[j] == a.features[i..][j - i] == fs[i..][j - i];
        }
        assert features[..] == a.features;
        return Some(NoTripError(feature.properties.id));
      }
      var relatedRoute := RouteFor(routes, relatedTrip.value);
      if relatedRoute.Some? {
        features[i] := feature.(properties := feature.properties.(color := Some(relatedRoute.value.color)));
      }
      assert Annotated(trips, routes, fs[i]) == Success(features[i]);
      i := i + 1;
    }
    AnnotateAllSucceeds(trips, routes, fs);
    return None;
  }

  // ---------------------------------------------------------------------
  // What `fetchRoutes` publishes

  /** The outcome of `fetchRoutes` for one routes answer. */
  datatype FetchOutcome =
    | NothingIncluded
    | Published(routes: seq<Route>, shapes: seq<LineFeature>)
    | Threw(error: string)

  function FetchSpec(response: Result<RoutesResponse, string>, decode: string -> seq<Position>): (o: FetchOutcome)
    ensures response.Failure? ==> o == Threw(response.error)
    ensures o.NothingIncluded? <==> response.Success? && response.value.included.None?
    ensures o.Published? ==> response.Success? && response.value.included.Some?
                             && o.routes == Seqs.Map(response.value.data, Prefixed)
  {
    match response
    case Failure(e) => Threw(e)
    case Success(body) =>
      var routes := Seqs.Map(body.data, Prefixed);
      match body.included
      case None => NothingIncluded
      case Some(included) =>
        var lines := Conversions.ShapesToFeatureCollection(ShapesOf(included), decode);
        var a := AnnotateAll(TripsOf(included), routes, lines);
        if a.error.Some? then Threw(a.error.value) else Published(routes, a.features)
  }

  /** What gets published: the prefixed routes, and one line per included
      shape whose colour is absent or that of a published route. */
  lemma PublishedColours(response: Result<RoutesResponse, string>, decode: string -> seq<Position>)
    requires FetchSpec(response, decode).Published?
    ensures var p := FetchSpec(response, decode);
      && p.routes == Seqs.Map(response.value.data, Prefixed)
      && |p.shapes| == |ShapesOf(response.value.included.value)|
      && forall i :: 0 <= i < |p.shapes| ==>
           p.shapes[i].properties.color.None?
           || exists j :: 0 <= j < |p.routes| && p.shapes[i].properties.color == Some(p.routes[j].color)
  {
    var body := response.value;
    var included := body.included.value;
    var routes := Seqs.Map(body.data, Prefixed);
    var trips := TripsOf(included);
    var lines := Conversions.ShapesToFeatureCollection(ShapesOf(included), decode);
    AnnotateAllErrorIff(trips, routes, lines);
    forall i | 0 <= i < |lines| ensures Annotated(trips, routes, lines[i]).Success? {
      assert exists j :: 0 <= j < |trips| && References(trips[j], lines[i]);
    }
    AnnotateAllSucceeds(trips, routes, lines);
    forall i | 0 <= i < |lines|
      ensures var c := AnnotateAll(trips, routes, lines).features[i].properties.color;
              c.None? || exists j :: 0 <= j < |routes| && c == Some(routes[j].color)
    {
      var trip := TripFor(trips, lines[i]).value;
      var route := RouteFor(routes, trip);
      if route.Some? {
        var j :| 0 <= j < |routes| && routes[j] == route.value && routes[j].id == trip.routeId;
      }
    }
  }

  /** A publish means no included shape was left without an included trip
      referencing it. */
  lemma PublishedShapesHaveTrips(response: Result<RoutesResponse, string>, decode: string -> seq<Position>)
    requires FetchSpec(response, decode).Published?
    ensures forall i :: 0 <= i < |ShapesOf(response.value.included.value)| ==>
      exists j :: 0 <= j < |TripsOf(response.value.included.value)|
               && TripsOf(response.value.included.value)[j].shapeId == ShapesOf(response.value.included.value)[i].id
  {
    var included := response.value.included.value;
    var shapes := ShapesOf(included);
    var routes := Seqs.Map(response.value.data, Prefixed);
    var trips := TripsOf(included);
    var lines := Conversions.ShapesToFeatureCollection(shapes, decode);
    assert AnnotateAll(trips, routes, lines).error.None?;
    AnnotateAllErrorIff(trips, routes, lines);
    forall i | 0 <= i < |shapes|
      ensures exists j :: 0 <= j < |trips| && trips[j].shapeId == shapes[i].id
    {
      assert lines[i].properties.id == Some(shapes[i].id);
      var j :| 0 <= j < |trips| && References(trips[j], lines[i]);
      assert trips[j].shapeId == shapes[i].id;
    }
    assert included == response.value.included.value;
    assert shapes == ShapesOf(response.value.included.value);
    assert trips == TripsOf(response.value.included.value);
  }

  /** Every published colour comes from a route and so starts with `#`. */
  lemma PublishedColoursArePrefixed(response: Result<RoutesResponse, string>, decode: string -> seq<Position>, i: int)
    requires FetchSpec(response, decode).Published?
    requires 0 <= i < |FetchSpec(response, decode).shapes|
    requires FetchSpec(response, decode).shapes[i].properties.color.Some?
    ensures var c := FetchSpec(response, decode).shapes[i].properties.color.value; |c| > 0 && c[0] == '#'
  {
    PublishedColours(response, decode);
  }

  // ---------------------------------------------------------------------
  // Light preset

  datatype Preset = Dawn | Day | Dusk | Night

  function PresetName(p: Preset): (name: string)
    ensures name != ""
  {
    match p
    case Dawn => "dawn"
    case Day => "day"
    case Dusk => "dusk"
    case Night => "night"
  }

  lemma PresetNamesDistinct(p: Preset, q: Preset)
    ensures PresetName(p) == PresetName(q) <==> p == q
  {
    if p != q {
      assert PresetName(p)[2] != PresetName(q)[2];
    }
  }

  /** 1.2e6 ms. */
  const TwentyMinutes := 1200000

  /** The if/else chain over milliseconds since the epoch: the first window
      that contains the current time wins, and `night` is the fallback. */
  function LightPreset(time: int, dawn: int, sunrise: int, sunset: int, dusk: int): (p: Preset)
    ensures p == Dawn <==> dawn - TwentyMinutes <= time < sunrise
    ensures p == Day <==>
      !(dawn - TwentyMinutes <= time < sunrise) && sunrise + TwentyMinutes <= time < sunset - TwentyMinutes
    ensures p == Dusk <==>
      && !(dawn - TwentyMinutes <= time < sunrise)
      && !(sunrise + TwentyMinutes <= time < sunset - TwentyMinutes)
      && sunset - TwentyMinutes <= time < dusk
  {
    if dawn - TwentyMinutes <= time < sunrise then Dawn
    else if sunrise + TwentyMinutes <= time < sunset - TwentyMinutes then Day
    else if sunset - TwentyMinutes <= time < dusk then Dusk
    else Night
  }

  /** The twenty minutes after sunrise fall in no window, so they are night
      (as long as the dusk window has not begun). */
  lemma NightAfterSunrise(time: int, dawn: int, sunrise: int, sunset: int, dusk: int)
    requires sunrise <= time < sunrise + TwentyMinutes
    requires time < sunset - TwentyMinutes
    ensures LightPreset(time, dawn, sunrise, sunset, dusk) == Night
  {
  }

  /** On an ordinary day (sunrise well before sunset) each window reads on its own. */
  lemma PresetOnOrdinaryDay(time: int, dawn: int, sunrise: int, sunset: int, dusk: int)
    requires sunrise <= sunset - TwentyMinutes
    ensures LightPreset(time, dawn, sunrise, sunset, dusk) == Day
        <==> sunrise + TwentyMinutes <= time < sunset - TwentyMinutes
    ensures LightPreset(time, dawn, sunrise, sunset, dusk) == Dusk
        <==> sunset - TwentyMinutes <= time < dusk
  {
  }

  /** The value the basemap's `lightPreset` holds after a render: it is
      written only when it is non-empty and differs from the computed one. */
  function NextPreset(current: string, computed: Preset): (r: string)
    ensures r == "" <==> current == ""
    ensures current != "" ==> r == PresetName(computed)
  {
    if current != "" && current != PresetName(computed) then PresetName(computed) else current
  }

  /** A second render with the same inputs writes nothing. */
  lemma NextPresetIdempotent(current: string, computed: Preset)
    ensures NextPreset(NextPreset(current, computed), computed) == NextPreset(current, computed)
  {
  }

  // ---------------------------------------------------------------------
  // The component's state

  class MapState {
    /** The `routes` and `shapes` React state, and the basemap's preset. */
    var routes: seq<Route>
    var shapes: seq<LineFeature>
    var lightPreset: string

    constructor(initialPreset: string)
      ensures routes == [] && shapes == [] && lightPreset == initialPreset
    {
      routes := [];
      shapes := [];
      lightPreset := initialPreset;
    }

    /** `fetchRoutes` after `getRoutes` settled: colours are prefixed, shapes
        coloured, and both published only when `included` is present and no
        shape lacked a trip. Returns what was thrown, if anything. */
    method FetchRoutes(response: Result<RoutesResponse, string>, decode: string -> seq<Position>)
      returns (error: Option<string>)
      modifies this
      ensures var r := FetchSpec(response, decode);
        && (r.Published? ==> routes == r.routes && shapes == r.shapes)
        && (!r.Published? ==> routes == old(routes) && shapes == old(shapes))
        && error == (if r.Threw? then Some(r.error) else None)
        && lightPreset == old(lightPreset)
    {
      if response.Failure? {
        return Some(response.error);
      }
      var chainedRoutes := response.value;
      var parsed := chainedRoutes.data;
      var parsedRoutes := new Route[|parsed|](i requires 0 <= i < |parsed| => parsed[i]);
      PrefixColors(parsedRoutes);
      assert parsedRoutes[..] == Seqs.Map(parsed, Prefixed);
      if chainedRoutes.included.None? {
        return None;
      }
      var included := chainedRoutes.included.value;
      var parsedTrips := TripsOf(included);
      var parsedShapes := ShapesOf(included);
      var collection := Conversions.ShapesToFeatureCollection(parsedShapes, decode);
      var features := new LineFeature[|collection|](i requires 0 <= i < |collection| => collection[i]);
      assert features[..] == collection;
      error := AnnotateFeatures(features, parsedTrips, parsedRoutes[..]);
      if error.None? {
        routes := parsedRoutes[..];
        shapes := features[..];
      }
    }

    /** The preset part of `onRender`: computes the preset for the current
        time and writes it when the basemap's preset is set and differs. */
    method OnRender(time: int, dawn: int, sunrise: int, sunset: int, dusk: int) returns (wrote: bool)
      modifies this
      ensures lightPreset == NextPreset(old(lightPreset), LightPreset(time, dawn, sunrise, sunset, dusk))
      ensures wrote <==> old(lightPreset) != "" && old(lightPreset) != PresetName(LightPreset(time, dawn, sunrise, sunset, dusk))
      ensures routes == old(routes) && shapes == old(shapes)
    {
      var preset;
      if time >= dawn - TwentyMinutes && time < sunrise {
        preset := "dawn";
      } else if time >= sunrise + TwentyMinutes && time < sunset - TwentyMinutes {
        preset := "day";
      } else if time >= sunset - TwentyMinutes && time < dusk {
        preset := "dusk";
      } else {
        preset := "night";
      }
      assert preset == PresetName(LightPreset(time, dawn, sunrise, sunset, dusk));
      wrote := lightPreset != "" && lightPreset != preset;
      if wrote {
        lightPreset := preset;
      }
    }
  }
}
