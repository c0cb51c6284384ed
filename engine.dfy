/**
 * The request and response shapes the client exchanges with the Valhalla
 * engine (the interfaces of src/clients/valhalla.ts), the JSON the requests are
 * sent as, and the shape of a tool result. The engine itself is not part of
 * this model: the tools receive its answer as a function parameter.
 */
module Engine {
  import opened Wrappers
  import opened Js
  import Polyline

  datatype Costing = Auto | Bicycle | Pedestrian | Taxi | Bus

  function CostingName(c: Costing): string {
    match c
    case Auto => "auto"
    case Bicycle => "bicycle"
    case Pedestrian => "pedestrian"
    case Taxi => "taxi"
    case Bus => "bus"
  }

  datatype Units = Kilometers | Miles

  function UnitsName(u: Units): string {
    match u
    case Kilometers => "kilometers"
    case Miles => "miles"
  }

  datatype LocationType = Break | Through | Via | BreakThrough

  function LocationTypeName(t: LocationType): string {
    match t
    case Break => "break"
    case Through => "through"
    case Via => "via"
    case BreakThrough => "break_through"
  }

  /** A point as the tools receive it: degrees, as JavaScript numbers. */
  datatype Coordinate = Coordinate(lat: real, lon: real)

  datatype Location = Location(lat: real, lon: real, kind: Option<LocationType>)

  datatype DirectionsOptions = DirectionsOptions(units: Option<Units>, language: Option<string>, narrative: Option<bool>)

  /** `RouteRequest`; `costing_options` and `filters` are never set by the tools and are not modelled. */
  datatype RouteRequest = RouteRequest(
    locations: seq<Location>,
    costing: Costing,
    directionsOptions: Option<DirectionsOptions>,
    alternates: Option<real>)

  datatype Contour = Contour(time: Option<real>, distance: Option<real>, color: Option<string>)

  datatype IsochroneRequest = IsochroneRequest(
    locations: seq<Coordinate>,
    costing: Costing,
    contours: seq<Contour>,
    polygons: Option<bool>,
    denoise: Option<real>,
    generalize: Option<real>)

  /** The trip summary: time in seconds, length in the requested units, and the bounding box. */
  datatype TripSummary = TripSummary(time: real, length: real, minLat: real, minLon: real, maxLat: real, maxLon: real)

  /** A leg; an absent shape is `None`. The shape is the encoded polyline, as UTF-16 code units. */
  datatype Leg = Leg(shape: Option<seq<Polyline.CodeUnit>>)

  /** A trip; an absent `legs` array is `None`. */
  datatype Trip = Trip(legs: Option<seq<Leg>>, summary: TripSummary)

  /** One entry of `alternates`. */
  datatype Alternate = Alternate(trip: Option<Trip>)

  datatype RouteResponse = RouteResponse(trip: Option<Trip>, alternates: Option<seq<Alternate>>)

  /** What a failed call throws: an `Error` with its message, or some other value. */
  datatype Thrown = ErrorInstance(message: string) | NonErrorValue

  /** `error instanceof Error ? error.message : "Unknown error"`. */
  function ErrorMessage(t: Thrown): string {
    match t
    case ErrorInstance(m) => m
    case NonErrorValue => "Unknown error"
  }

  /** A tool result: one text item holding the serialised payload, and the error flag. */
  datatype ToolResult = ToolResult(payload: Json, isError: bool)

  /** The JSON payload of a failed tool call. */
  function ErrorPayload(error: string, message: string, kind: string): Json {
    JObj(map["error" := JStr(error), "message" := JStr(message), "type" := JStr(kind)])
  }

  // The JSON the requests are sent as; `undefined` members are omitted

  function WithOptional(m: map<string, Json>, key: string, v: Option<Json>): map<string, Json> {
    if v.Some? then m[key := v.value] else m
  }

  function LocationJson(l: Location): Json {
    JObj(WithOptional(
      map["lat" := JNum(l.lat), "lon" := JNum(l.lon)],
      "type", if l.kind.Some? then Some(JStr(LocationTypeName(l.kind.value))) else None))
  }

  function DirectionsOptionsJson(d: DirectionsOptions): Json {
    var units := if d.units.Some? then Some(JStr(UnitsName(d.units.value))) else None;
    var language := if d.language.Some? then Some(JStr(d.language.value)) else None;
    var narrative := if d.narrative.Some? then Some(JBool(d.narrative.value)) else None;
    JObj(WithOptional(WithOptional(WithOptional(map[], "units", units), "language", language), "narrative", narrative))
  }

  function NumberOf(v: Option<real>): Option<Json> {
    if v.Some? then Some(JNum(v.value)) else None
  }

  function RouteRequestJson(r: RouteRequest): Json {
    var locations := JArr(seq(|r.locations|, k requires 0 <= k < |r.locations| => LocationJson(r.locations[k])));
    var base := map["locations" := locations, "costing" := JStr(CostingName(r.costing))];
    var options := if r.directionsOptions.Some? then Some(DirectionsOptionsJson(r.directionsOptions.value)) else None;
    JObj(WithOptional(WithOptional(base, "directions_options", options), "alternates", NumberOf(r.alternates)))
  }

  function CoordinateJson(c: Coordinate): Json {
    JObj(map["lat" := JNum(c.lat), "lon" := JNum(c.lon)])
  }

  function ContourJson(c: Contour): Json {
    var color := if c.color.Some? then Some(JStr(c.color.value)) else None;
    JObj(WithOptional(WithOptional(WithOptional(map[], "time", NumberOf(c.time)), "distance", NumberOf(c.distance)), "color", color))
  }

  function IsochroneRequestJson(r: IsochroneRequest): Json {
    var locations := JArr(seq(|r.locations|, k requires 0 <= k < |r.locations| => CoordinateJson(r.locations[k])));
    var contours := JArr(seq(|r.contours|, k requires 0 <= k < |r.contours| => ContourJson(r.contours[k])));
    var base := map["locations" := locations, "costing" := JStr(CostingName(r.costing)), "contours" := contours];
    var polygons := if r.polygons.Some? then Some(JBool(r.polygons.value)) else None;
    JObj(WithOptional(WithOptional(WithOptional(base, "polygons", polygons), "denoise", NumberOf(r.denoise)), "generalize", NumberOf(r.generalize)))
  }
}
