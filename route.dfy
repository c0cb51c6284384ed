/**
 * The route tool (src/tools/route.ts).
 *
 * The tool turns its arguments into an engine request (two "break"
 * locations, the costing, directions options, and `alternates` only when more
 * than zero alternatives are asked for), checks the engine's answer, decodes
 * the first leg's shape into a GeoJSON line with `[lon, lat]` positions, adds
 * one feature per alternate that has a shape, and reports every failure as a
 * "route_error" result. The engine is a function parameter. Positions stay in
 * millionths of a degree; in the JSON payload they are divided by 1e6 exactly.
 */
module Route {
  import opened Wrappers
  import opened Js
  import Engine
  import Polyline
  import Validation

  // The tool's input

  /**
   * The arguments after the input schema: `mode` has its default applied;
   * `units` is `default('kilometers').optional()`, whose default is never
   * applied to a missing value, so it stays optional.
   */
  datatype RouteInput = RouteInput(
    origin: Engine.Coordinate,
    destination: Engine.Coordinate,
    mode: Engine.Costing,
    alternatives: Option<real>,
    units: Option<Engine.Units>)

  const UnitNames: set<string> := {"kilometers", "miles"}

  /** The tool's input schema, over the raw arguments. */
  predicate RouteArgs(j: Json) {
    && j.JObj?
    && "origin" in j.fields && Validation.Coordinate(j.fields["origin"])
    && "destination" in j.fields && Validation.Coordinate(j.fields["destination"])
    && (Validation.Absent(j.fields, "mode") || Validation.OneOf(j.fields["mode"], Validation.CostingModels))
    && (Validation.Absent(j.fields, "alternatives") || Validation.NumberIn(j.fields["alternatives"], 0.0, 5.0))
    && (Validation.Absent(j.fields, "units") || Validation.OneOf(j.fields["units"], UnitNames))
  }

  function CostingOf(name: string): (c: Engine.Costing)
    requires name in Validation.CostingModels
    ensures Engine.CostingName(c) == name
  {
    if name == "auto" then Engine.Auto
    else if name == "bicycle" then Engine.Bicycle
    else if name == "pedestrian" then Engine.Pedestrian
    else if name == "taxi" then Engine.Taxi
    else Engine.Bus
  }

  function CoordinateOf(j: Json): Engine.Coordinate
    requires Validation.Coordinate(j)
  {
    Engine.Coordinate(j.fields["lat"].n, j.fields["lon"].n)
  }

  /** The input the handler sees for accepted arguments; a missing mode is "auto". */
  function RouteInputOf(j: Json): RouteInput
    requires RouteArgs(j)
  {
    var f := j.fields;
    RouteInput(
      CoordinateOf(f["origin"]),
      CoordinateOf(f["destination"]),
      if "mode" in f then CostingOf(f["mode"].s) else Engine.Auto,
      if "alternatives" in f then Some(f["alternatives"].n) else None,
      if "units" in f then Some(if f["units"].s == "miles" then Engine.Miles else Engine.Kilometers) else None)
  }

  predicate InRange(c: Engine.Coordinate) {
    -90.0 <= c.lat <= 90.0 && -180.0 <= c.lon <= 180.0
  }

  predicate ValidInput(input: RouteInput) {
    && InRange(input.origin) && InRange(input.destination)
    && (input.alternatives.None? || 0.0 <= input.alternatives.value <= 5.0)
  }

  // The engine request

  /** `input.alternatives && input.alternatives > 0`. */
  predicate WantsAlternatives(input: RouteInput) {
    input.alternatives.Some? && input.alternatives.value != 0.0 && input.alternatives.value > 0.0
  }

  function DirectionsFor(input: RouteInput): Engine.DirectionsOptions {
    Engine.DirectionsOptions(Some(input.units.GetOr(Engine.Kilometers)), None, Some(true))
  }

  function BreakAt(c: Engine.Coordinate): Engine.Location {
    Engine.Location(c.lat, c.lon, Some(Engine.Break))
  }

  /** The request the tool sends. */
  function RouteRequestFor(input: RouteInput): Engine.RouteRequest {
    Engine.RouteRequest(
      [BreakAt(input.origin), BreakAt(input.destination)],
      input.mode,
      Some(DirectionsFor(input)),
      if WantsAlternatives(input) then input.alternatives else None)
  }

  /** Builds the request literal, then sets `alternates` when alternatives are asked for. */
  method PrepareRouteRequest(input: RouteInput) returns (request: Engine.RouteRequest)
    ensures request == RouteRequestFor(input)
    ensures |request.locations| == 2 && request.costing == input.mode
    ensures request.alternates.Some? <==> WantsAlternatives(input)
  {
    request := Engine.RouteRequest(
      [Engine.Location(input.origin.lat, input.origin.lon, Some(Engine.Break)),
       Engine.Location(input.destination.lat, input.destination.lon, Some(Engine.Break))],
      input.mode,
      Some(Engine.DirectionsOptions(Some(input.units.GetOr(Engine.Kilometers)), None, Some(true))),
      None);
    if input.alternatives.Some? && input.alternatives.value != 0.0 && input.alternatives.value > 0.0 {
      request := request.(alternates := input.alternatives);
    }
  }

  // The response

  const NoRouteMessage := "Valhalla returned no route - check coordinates are within map data coverage"

  /** `trip && trip.legs && trip.legs.length > 0 && trip.legs[0].shape`; an empty shape is falsy. */
  predicate HasShape(trip: Option<Engine.Trip>) {
    && trip.Some? && trip.value.legs.Some? && |trip.value.legs.value| > 0
    && trip.value.legs.value[0].shape.Some? && |trip.value.legs.value[0].shape.value| > 0
  }

  function FirstShape(trip: Option<Engine.Trip>): seq<Polyline.CodeUnit>
    requires HasShape(trip)
  {
    trip.value.legs.value[0].shape.value
  }

  /** `coordinates.map(([lat, lon]) => [lon, lat])`. */
  function SwapToLonLat(points: seq<Polyline.Point>): (r: seq<seq<int>>)
    ensures |r| == |points|
  {
    seq(|points|, k requires 0 <= k < |points| => [points[k].lon, points[k].lat])
  }

  /** The inverse reading of a GeoJSON line, `[lon, lat]` back to points. */
  function LonLatToPoints(positions: seq<seq<int>>): seq<Polyline.Point>
    requires forall k | 0 <= k < |positions| :: |positions[k]| == 2
  {
    seq(|positions|, k requires 0 <= k < |positions| => Polyline.Point(positions[k][1], positions[k][0]))
  }

  datatype Properties =
    | MainProperties(distanceKm: real, durationSeconds: real, durationMinutes: int,
                     units: Engine.Units, mode: Engine.Costing, bbox: seq<real>)
    | AlternativeProperties(distanceKm: real, durationSeconds: real, durationMinutes: int)

  /** A GeoJSON `Feature` with a `LineString` geometry. */
  datatype Feature = Feature(coordinates: seq<seq<int>>, properties: Properties)

  /** `[min_lon, min_lat, max_lon, max_lat]` of a summary. */
  function BBox(s: Engine.TripSummary): seq<real> {
    [s.minLon, s.minLat, s.maxLon, s.maxLat]
  }

  function MainFeature(input: RouteInput, trip: Engine.Trip): Feature
    requires HasShape(Some(trip))
  {
    var s := trip.summary;
    Feature(
      SwapToLonLat(Polyline.Decode(FirstShape(Some(trip)))),
      MainProperties(s.length, s.time, Round(s.time / 60.0), input.units.GetOr(Engine.Kilometers), input.mode, BBox(s)))
  }

  function AlternativeFeature(trip: Engine.Trip): Feature
    requires HasShape(Some(trip))
  {
    var s := trip.summary;
    Feature(
      SwapToLonLat(Polyline.Decode(FirstShape(Some(trip)))),
      AlternativeProperties(s.length, s.time, Round(s.time / 60.0)))
  }

  /** The features of the alternates that have a shape, in order; the others are skipped. */
  function AlternativeFeatures(alts: seq<Engine.Alternate>): (fs: seq<Feature>)
    ensures |fs| <= |alts|
  {
    if alts == [] then []
    else
      var last := alts[|alts| - 1];
      AlternativeFeatures(alts[..|alts| - 1])
        + (if HasShape(last.trip) then [AlternativeFeature(last.trip.value)] else [])
  }

  /** The alternates that have a shape, in order. */
  function ShapedAlternates(alts: seq<Engine.Alternate>): (r: seq<Engine.Trip>)
    ensures forall k | 0 <= k < |r| :: HasShape(Some(r[k]))
  {
    if alts == [] then []
    else if HasShape(alts[0].trip) then [alts[0].trip.value] + ShapedAlternates(alts[1..])
    else ShapedAlternates(alts[1..])
  }

  /** The features of the response, main one first. */
  function RouteFeatures(input: RouteInput, response: Engine.RouteResponse): seq<Feature>
    requires HasShape(response.trip)
  {
    [MainFeature(input, response.trip.value)] + AlternativeFeatures(response.alternates.GetOr([]))
  }

  // The tool result

  function Degrees(microDegrees: int): Json {
    JNum(microDegrees as real / 1000000.0)
  }

  function PositionJson(p: seq<int>): Json {
    JArr(seq(|p|, k requires 0 <= k < |p| => Degrees(p[k])))
  }

  function PropertiesJson(p: Properties): Json {
    var common := map[
      "distance_km" := JNum(p.distanceKm),
      "duration_seconds" := JNum(p.durationSeconds),
      "duration_minutes" := JNum(p.durationMinutes as real)];
    match p
    case MainProperties(_, _, _, units, mode, bbox) =>
      JObj(common[
        "units" := JStr(Engine.UnitsName(units))][
        "mode" := JStr(Engine.CostingName(mode))][
        "bbox" := JArr(seq(|bbox|, k requires 0 <= k < |bbox| => JNum(bbox[k])))])
    case AlternativeProperties(_, _, _) =>
      JObj(common["alternative" := JBool(true)])
  }

  function FeatureJson(f: Feature): Json {
    var line := JObj(map[
      "type" := JStr("LineString"),
      "coordinates" := JArr(seq(|f.coordinates|, k requires 0 <= k < |f.coordinates| => PositionJson(f.coordinates[k])))]);
    JObj(map["type" := JStr("Feature"), "geometry" := line, "properties" := PropertiesJson(f.properties)])
  }

  function FeatureCollectionJson(fs: seq<Feature>): Json {
    JObj(map[
      "type" := JStr("FeatureCollection"),
      "features" := JArr(seq(|fs|, k requires 0 <= k < |fs| => FeatureJson(fs[k])))])
  }

  function RouteError(message: string): Engine.ToolResult {
    Engine.ToolResult(Engine.ErrorPayload("Failed to calculate route", message, "route_error"), true)
  }

  /** The tool's result for the engine's answer to its request. */
  function RouteResult(input: RouteInput, answer: Result<Engine.RouteResponse, Engine.Thrown>): Engine.ToolResult {
    match answer
    case Failure(thrown) => RouteError(Engine.ErrorMessage(thrown))
    case Success(response) =>
      if !HasShape(response.trip) then RouteError(NoRouteMessage)
      else Engine.ToolResult(FeatureCollectionJson(RouteFeatures(input, response)), false)
  }

  // The handler

  /** Decodes one alternate after another and pushes a feature for each that has a shape. */
  method CollectAlternatives(alts: seq<Engine.Alternate>) returns (features: seq<Feature>)
    ensures features == AlternativeFeatures(alts)
  {
    features := [];
    for i := 0 to |alts|
      invariant features == AlternativeFeatures(alts[..i])
    {
      var alt := alts[i];
      if alt.trip.Some? && alt.trip.value.legs.Some? && |alt.trip.value.legs.value| > 0
         && alt.trip.value.legs.value[0].shape.Some? && |alt.trip.value.legs.value[0].shape.value| > 0 {
        var altCoords := Polyline.DecodePolyline(alt.trip.value.legs.value[0].shape.value);
        var s := alt.trip.value.summary;
        features := features + [Feature(SwapToLonLat(altCoords), AlternativeProperties(s.length, s.time, Round(s.time / 60.0)))];
      }
      assert alts[..i + 1][..i] == alts[..i];
    }
    assert alts[..|alts|] == alts;
  }

  /** The route tool, given the engine's answer to each request. */
  method RouteTool(input: RouteInput, engine: Engine.RouteRequest -> Result<Engine.RouteResponse, Engine.Thrown>)
    returns (request: Engine.RouteRequest, result: Engine.ToolResult)
    ensures request == RouteRequestFor(input)
    ensures result == RouteResult(input, engine(request))
  {
    request := PrepareRouteRequest(input);
    var answer := engine(request);
    if answer.Failure? {
      return request, RouteError(Engine.ErrorMessage(answer.error));
    }
    var response := answer.value;
    if !HasShape(response.trip) {
      return request, RouteError(NoRouteMessage);
    }
    var trip := response.trip.value;
    var coordinates := Polyline.DecodePolyline(trip.legs.value[0].shape.value);
    var s := trip.summary;
    var main := Feature(
      SwapToLonLat(coordinates),
      MainProperties(s.length, s.time, Round(s.time / 60.0), input.units.GetOr(Engine.Kilometers), input.mode, BBox(s)));
    var alternatives := [];
    if response.alternates.Some? && |response.alternates.value| > 0 {
      alternatives := CollectAlternatives(response.alternates.value);
    }
    result := Engine.ToolResult(FeatureCollectionJson([main] + alternatives), false);
  }

  // Properties

  /** A missing mode means "auto", and accepted arguments give a valid input. */
  lemma ArgsGiveValidInput(j: Json)
    requires RouteArgs(j)
    ensures ValidInput(RouteInputOf(j))
    ensures "mode" !in j.fields ==> RouteInputOf(j).mode == Engine.Auto
    ensures "units" !in j.fields ==> RouteInputOf(j).units == None
  {
  }

  /** Two "break" locations, origin then destination; costing is the mode; units default to kilometres; narrative on. */
  lemma RouteRequestShape(input: RouteInput)
    ensures var r := RouteRequestFor(input);
      && |r.locations| == 2
      && r.locations[0] == Engine.Location(input.origin.lat, input.origin.lon, Some(Engine.Break))
      && r.locations[1] == Engine.Location(input.destination.lat, input.destination.lon, Some(Engine.Break))
      && r.costing == input.mode
      && r.directionsOptions.Some?
      && r.directionsOptions.value.units == Some(if input.units == Some(Engine.Miles) then Engine.Miles else Engine.Kilometers)
      && r.directionsOptions.value.narrative == Some(true)
      && (r.alternates.Some? <==> input.alternatives.Some? && input.alternatives.value > 0.0)
      && (r.alternates.Some? ==> r.alternates == input.alternatives)
  {
    if input.units.Some? {
      assert input.units.value == Engine.Kilometers || input.units.value == Engine.Miles;
    }
  }

  /** For a valid input the request satisfies `routeRequestSchema`. */
  lemma RouteRequestValid(input: RouteInput)
    requires ValidInput(input)
    ensures Validation.RouteRequest(Engine.RouteRequestJson(RouteRequestFor(input)))
  {
    var r := RouteRequestFor(input);
    var j := Engine.RouteRequestJson(r);
    var locations := j.fields["locations"].items;
    assert locations == [Engine.LocationJson(r.locations[0]), Engine.LocationJson(r.locations[1])];
    BreakIsLocation(input.origin);
    BreakIsLocation(input.destination);
    DirectionsAreValid(input);
    assert j.fields["directions_options"] == Engine.DirectionsOptionsJson(DirectionsFor(input));
    assert j.fields.Keys <= Validation.RouteKeys;
    assert j.fields["costing"] == JStr(Engine.CostingName(input.mode));
  }

  lemma BreakIsLocation(c: Engine.Coordinate)
    requires InRange(c)
    ensures Validation.Location(Engine.LocationJson(BreakAt(c)))
  {
    var m := Engine.LocationJson(BreakAt(c)).fields;
    assert m["lat"] == JNum(c.lat) && m["lon"] == JNum(c.lon) && m["type"] == JStr("break");
  }

  lemma DirectionsAreValid(input: RouteInput)
    requires ValidInput(input)
    ensures Validation.DirectionsOptions(Engine.DirectionsOptionsJson(DirectionsFor(input)))
  {
    var d := Engine.DirectionsOptionsJson(DirectionsFor(input)).fields;
    assert "language" !in d && d["narrative"] == JBool(true);
    assert d["units"] == JStr(Engine.UnitsName(input.units.GetOr(Engine.Kilometers)));
  }

  /** A failed call and an answer without a shape are "route_error" results. */
  lemma FailuresAreRouteErrors(input: RouteInput, answer: Result<Engine.RouteResponse, Engine.Thrown>)
    ensures var r := RouteResult(input, answer);
      && (r.isError <==> answer.Failure? || !HasShape(answer.value.trip))
      && (r.isError ==> r.payload == Engine.ErrorPayload("Failed to calculate route",
            if answer.Failure? then Engine.ErrorMessage(answer.error) else NoRouteMessage, "route_error"))
  {
  }

  /** Swapping to `[lon, lat]` keeps length and order, and reading the pairs back gives the points. */
  lemma SwapRoundTrip(points: seq<Polyline.Point>)
    ensures var r := SwapToLonLat(points);
      && (forall k | 0 <= k < |r| :: r[k] == [points[k].lon, points[k].lat])
      && LonLatToPoints(r) == points
  {
  }

  /** The main feature's line is the decoded first-leg shape, swapped; its bbox is min lon, min lat, max lon, max lat. */
  lemma MainGeometry(input: RouteInput, response: Engine.RouteResponse)
    requires HasShape(response.trip)
    ensures var fs := RouteFeatures(input, response);
      && |fs| >= 1
      && fs[0].coordinates == SwapToLonLat(Polyline.Decode(FirstShape(response.trip)))
      && |fs[0].coordinates| == |Polyline.Decode(FirstShape(response.trip))|
      && fs[0].properties.MainProperties?
      && fs[0].properties.bbox == [response.trip.value.summary.minLon, response.trip.value.summary.minLat,
                                   response.trip.value.summary.maxLon, response.trip.value.summary.maxLat]
  {
  }

  lemma {:induction false} ShapedAlternatesSnoc(alts: seq<Engine.Alternate>, a: Engine.Alternate)
    ensures ShapedAlternates(alts + [a]) == ShapedAlternates(alts) + (if HasShape(a.trip) then [a.trip.value] else [])
  {
    if alts != [] {
      ShapedAlternatesSnoc(alts[1..], a);
      assert (alts + [a])[1..] == alts[1..] + [a];
    } else {
      assert ShapedAlternates([a][1..]) == [];
    }
  }

  /** One feature per alternate that has a shape, in order: the filter, then the map. */
  lemma {:induction false} AlternativesAreFilteredInOrder(alts: seq<Engine.Alternate>)
    ensures var fs, shaped := AlternativeFeatures(alts), ShapedAlternates(alts);
      && |fs| == |shaped|
      && forall k | 0 <= k < |fs| :: fs[k] == AlternativeFeature(shaped[k])
  {
    if alts != [] {
      var init, last := alts[..|alts| - 1], alts[|alts| - 1];
      AlternativesAreFilteredInOrder(init);
      assert alts == init + [last];
      ShapedAlternatesSnoc(init, last);
      var fs0, shaped0 := AlternativeFeatures(init), ShapedAlternates(init);
      var x := if HasShape(last.trip) then [AlternativeFeature(last.trip.value)] else [];
      var y := if HasShape(last.trip) then [last.trip.value] else [];
      assert AlternativeFeatures(alts) == fs0 + x;
      assert ShapedAlternates(alts) == shaped0 + y;
      forall k | 0 <= k < |fs0 + x|
        ensures (fs0 + x)[k] == AlternativeFeature((shaped0 + y)[k])
      {
        if k >= |fs0| {
          assert (fs0 + x)[k] == x[0] && (shaped0 + y)[k] == y[0];
        }
      }
    }
  }

  /** A successful result lists the main feature, then the alternates' features. */
  lemma SuccessLayout(input: RouteInput, response: Engine.RouteResponse)
    requires HasShape(response.trip)
    ensures var fs := RouteFeatures(input, response);
      && RouteResult(input, Success(response)) == Engine.ToolResult(FeatureCollectionJson(fs), false)
      && fs[1..] == AlternativeFeatures(response.alternates.GetOr([]))
      && |fs| <= 1 + |response.alternates.GetOr([])|
  {
  }
}
