/**
 * The input validators (src/utils/validation.ts).
 *
 * Each zod schema becomes a predicate over a JSON value: the value is accepted
 * exactly when the predicate holds. A plain `z.object` ignores keys it does not
 * name; a `.strict()` one rejects them. `validateAndSanitize` either returns
 * the parsed value or reports one issue per failure, with the issue's path
 * segments joined by ".". What zod's parser returns and which issues it lists
 * are parameters of the model; their agreement with the predicates is
 * required of them as a precondition.
 */
module Validation {
  import opened Wrappers
  import opened Js
  import Errors

  // Building blocks

  predicate NumberIn(j: Json, lo: real, hi: real) {
    j.JNum? && lo <= j.n <= hi
  }

  predicate IsInteger(j: Json) {
    j.JNum? && j.n.Floor as real == j.n
  }

  predicate OneOf(j: Json, allowed: set<string>) {
    j.JStr? && j.s in allowed
  }

  /** A key that zod's `.optional()` allows to be missing. */
  predicate Absent(fields: map<string, Json>, key: string) {
    key !in fields
  }

  predicate OnlyKeys(fields: map<string, Json>, allowed: set<string>) {
    fields.Keys <= allowed
  }

  predicate IsHexDigit(c: char) {
    ('0' <= c <= '9') || ('a' <= c <= 'f') || ('A' <= c <= 'F')
  }

  /** `/^[0-9a-fA-F]{6}$/`. */
  predicate HexColor(s: string) {
    |s| == 6 && forall k | 0 <= k < |s| :: IsHexDigit(s[k])
  }

  // The schemas

  predicate Latitude(j: Json) {
    NumberIn(j, -90.0, 90.0)
  }

  predicate Longitude(j: Json) {
    NumberIn(j, -180.0, 180.0)
  }

  /** `coordinateSchema`. */
  predicate Coordinate(j: Json) {
    && j.JObj?
    && "lat" in j.fields && Latitude(j.fields["lat"])
    && "lon" in j.fields && Longitude(j.fields["lon"])
  }

  const LocationTypes: set<string> := {"break", "through", "via", "break_through"}

  /** `locationSchema`. */
  predicate Location(j: Json) {
    && Coordinate(j)
    && (Absent(j.fields, "type") || OneOf(j.fields["type"], LocationTypes))
  }

  const CostingModels: set<string> := {"auto", "bicycle", "pedestrian", "taxi", "bus"}

  /** `costingSchema`. */
  predicate Costing(j: Json) {
    OneOf(j, CostingModels)
  }

  predicate DirectionsOptions(j: Json) {
    && j.JObj?
    && (Absent(j.fields, "units") || OneOf(j.fields["units"], {"kilometers", "miles"}))
    && (Absent(j.fields, "language") || (j.fields["language"].JStr? && 2 <= |j.fields["language"].s| <= 5))
    && (Absent(j.fields, "narrative") || j.fields["narrative"].JBool?)
  }

  predicate Filters(j: Json) {
    && j.JObj?
    && (Absent(j.fields, "attributes")
        || (j.fields["attributes"].JArr?
            && forall k | 0 <= k < |j.fields["attributes"].items| :: j.fields["attributes"].items[k].JStr?))
    && (Absent(j.fields, "action") || OneOf(j.fields["action"], {"include", "exclude"}))
  }

  const RouteKeys: set<string> :=
    {"locations", "costing", "costing_options", "directions_options", "filters", "alternates"}

  /** `routeRequestSchema`. */
  predicate RouteRequest(j: Json) {
    && j.JObj?
    && OnlyKeys(j.fields, RouteKeys)
    && "locations" in j.fields && j.fields["locations"].JArr?
    && 2 <= |j.fields["locations"].items| <= 20
    && (forall k | 0 <= k < |j.fields["locations"].items| :: Location(j.fields["locations"].items[k]))
    && "costing" in j.fields && Costing(j.fields["costing"])
    && (Absent(j.fields, "costing_options") || j.fields["costing_options"].JObj?)
    && (Absent(j.fields, "directions_options") || DirectionsOptions(j.fields["directions_options"]))
    && (Absent(j.fields, "filters") || Filters(j.fields["filters"]))
    && (Absent(j.fields, "alternates") || NumberIn(j.fields["alternates"], 0.0, 5.0))
  }

  /** One contour: time or distance, exactly one of them, and an optional colour. */
  predicate Contour(j: Json) {
    && j.JObj?
    && (Absent(j.fields, "time") || NumberIn(j.fields["time"], 1.0, 120.0))
    && (Absent(j.fields, "distance") || NumberIn(j.fields["distance"], 0.1, 100.0))
    && (Absent(j.fields, "color") || (j.fields["color"].JStr? && HexColor(j.fields["color"].s)))
    && (("time" in j.fields) != ("distance" in j.fields))
  }

  const IsochroneKeys: set<string> :=
    {"locations", "costing", "contours", "polygons", "denoise", "generalize"}

  /** `isochroneRequestSchema`. */
  predicate IsochroneRequest(j: Json) {
    && j.JObj?
    && OnlyKeys(j.fields, IsochroneKeys)
    && "locations" in j.fields && j.fields["locations"].JArr?
    && 1 <= |j.fields["locations"].items| <= 5
    && (forall k | 0 <= k < |j.fields["locations"].items| :: Coordinate(j.fields["locations"].items[k]))
    && "costing" in j.fields && Costing(j.fields["costing"])
    && "contours" in j.fields && j.fields["contours"].JArr?
    && 1 <= |j.fields["contours"].items| <= 4
    && (forall k | 0 <= k < |j.fields["contours"].items| :: Contour(j.fields["contours"].items[k]))
    && (Absent(j.fields, "polygons") || j.fields["polygons"].JBool?)
    && (Absent(j.fields, "denoise") || NumberIn(j.fields["denoise"], 0.0, 1.0))
    && (Absent(j.fields, "generalize") || NumberIn(j.fields["generalize"], 0.0, 1000.0))
  }

  /** The largest tile index at zoom z, `2^z - 1`. */
  function MaxTile(z: nat): int {
    Pow2(z) - 1
  }

  /** `tileRequestSchema`: integer z in [0, 18], integer x and y in [0, 2^z - 1]. */
  predicate TileRequest(j: Json) {
    && j.JObj?
    && "z" in j.fields && IsInteger(j.fields["z"]) && NumberIn(j.fields["z"], 0.0, 18.0)
    && "x" in j.fields && IsInteger(j.fields["x"]) && j.fields["x"].n >= 0.0
    && "y" in j.fields && IsInteger(j.fields["y"]) && j.fields["y"].n >= 0.0
    && j.fields["x"].n <= MaxTile(j.fields["z"].n.Floor) as real
    && j.fields["y"].n <= MaxTile(j.fields["z"].n.Floor) as real
  }

  datatype Schema = CoordinateSchema | LocationSchema | CostingSchema | RouteSchema | IsochroneSchema | TileSchema

  predicate Accepts(schema: Schema, j: Json) {
    match schema
    case CoordinateSchema => Coordinate(j)
    case LocationSchema => Location(j)
    case CostingSchema => Costing(j)
    case RouteSchema => RouteRequest(j)
    case IsochroneSchema => IsochroneRequest(j)
    case TileSchema => TileRequest(j)
  }

  // validateAndSanitize

  datatype PathSegment = Field(name: string) | Index(position: nat)

  /** A zod issue: where, what, and zod's issue code. */
  datatype ZodIssue = ZodIssue(path: seq<PathSegment>, message: string, code: string)

  /** What `schema.parse(data)` does: return a value, or throw a ZodError listing issues. */
  datatype ParseOutcome = Parsed(value: Json) | Rejected(issues: seq<ZodIssue>)

  /** The `ValidationError` of this file: an `Error` named "ValidationError" with its issues. */
  datatype ValidationError = ValidationError(message: string, issues: seq<Errors.Issue>)

  const InvalidInputMessage := "Invalid input data"

  function SegmentText(s: PathSegment): string {
    match s
    case Field(name) => name
    case Index(i) => NatToString(i)
  }

  /** `path.join('.')`. */
  function JoinPath(path: seq<PathSegment>): string {
    if path == [] then ""
    else if |path| == 1 then SegmentText(path[0])
    else SegmentText(path[0]) + "." + JoinPath(path[1..])
  }

  function ReportIssue(i: ZodIssue): Errors.Issue {
    Errors.Issue(JoinPath(i.path), i.message, i.code)
  }

  function ReportIssues(issues: seq<ZodIssue>): (r: seq<Errors.Issue>)
    ensures |r| == |issues|
    ensures forall k | 0 <= k < |issues| :: r[k] == ReportIssue(issues[k])
  {
    if issues == [] then [] else [ReportIssue(issues[0])] + ReportIssues(issues[1..])
  }

  /** `validateAndSanitize(schema, data)`, given what zod's parser does with the data. */
  function ValidateAndSanitize(schema: Schema, data: Json, outcome: ParseOutcome): (r: Result<Json, ValidationError>)
    requires outcome.Parsed? <==> Accepts(schema, data)
    ensures r.Success? <==> Accepts(schema, data)
    ensures r.Success? ==> r.value == outcome.value
    ensures r.Failure? ==> (
      && r.error.message == InvalidInputMessage
      && |r.error.issues| == |outcome.issues|
      && forall k | 0 <= k < |outcome.issues| ::
           && r.error.issues[k].path == JoinPath(outcome.issues[k].path)
           && r.error.issues[k].message == outcome.issues[k].message
           && r.error.issues[k].code == outcome.issues[k].code)
  {
    match outcome
    case Parsed(v) => Success(v)
    case Rejected(issues) => Failure(ValidationError(InvalidInputMessage, ReportIssues(issues)))
  }

  /** The thrown `ValidationError`, as `handleError` sees it: not a remote error, named "ValidationError". */
  function AsThrown(e: ValidationError): Errors.Thrown {
    Errors.Thrown(false, Some("ValidationError"), Some(e.message), None, None, None, Some(e.issues), Errors.NoDetails, None)
  }

  // Properties

  /** A validation failure reaches the client as a 400 carrying the reported issues. */
  lemma ValidationFailureIs400(e: ValidationError, requestId: Option<string>, now: int)
    ensures var r := Errors.HandleError(Errors.Foreign(AsThrown(e)), requestId, now);
      && Errors.CodeValue(r.code) == 400
      && r.message == e.message
      && r.details == Errors.Issues(e.issues)
  {
    Errors.NamedValidationError(AsThrown(e), requestId, now);
  }

  /** Latitude 200 is refused, and validation reports it. */
  lemma LatitudeOutOfRange(outcome: ParseOutcome)
    requires outcome.Rejected?
    ensures var j := JObj(map["lat" := JNum(200.0), "lon" := JNum(0.0)]);
      !Coordinate(j) && ValidateAndSanitize(CoordinateSchema, j, outcome).Failure?
  {
    var j := JObj(map["lat" := JNum(200.0), "lon" := JNum(0.0)]);
    assert j.fields["lat"] == JNum(200.0);
  }

  /** A coordinate object with numeric fields is accepted iff both are within range. */
  lemma CoordinateRanges(lat: real, lon: real, extra: map<string, Json>)
    ensures var j := JObj(extra["lat" := JNum(lat)]["lon" := JNum(lon)]);
      Coordinate(j) <==> -90.0 <= lat <= 90.0 && -180.0 <= lon <= 180.0
  {
    var m := extra["lat" := JNum(lat)]["lon" := JNum(lon)];
    assert m["lat"] == JNum(lat) && m["lon"] == JNum(lon);
  }

  /** Both request schemas are strict: a key they do not name is refused. */
  lemma StrictRequests(j: Json, key: string)
    requires j.JObj? && key in j.fields
    ensures key !in RouteKeys ==> !RouteRequest(j)
    ensures key !in IsochroneKeys ==> !IsochroneRequest(j)
  {
  }

  /** The coordinate schema is not strict: unknown keys are ignored. */
  lemma CoordinateIgnoresExtraKeys(j: Json, key: string, v: Json)
    requires j.JObj? && key != "lat" && key != "lon"
    ensures Coordinate(j) <==> Coordinate(JObj(j.fields[key := v]))
  {
    var m := j.fields[key := v];
    assert ("lat" in m <==> "lat" in j.fields) && ("lon" in m <==> "lon" in j.fields);
    assert "lat" in m ==> m["lat"] == j.fields["lat"];
    assert "lon" in m ==> m["lon"] == j.fields["lon"];
  }

  /** Every contour of an accepted isochrone request has exactly one of time and distance. */
  lemma ContourExclusive(j: Json, k: nat)
    requires IsochroneRequest(j) && k < |j.fields["contours"].items|
    ensures var c := j.fields["contours"].items[k].fields;
      ("time" in c && "distance" !in c) || ("time" !in c && "distance" in c)
  {
  }

  /** An accepted route request has 2 to 20 locations, a known costing and at most 5 alternates. */
  lemma RouteRequestBounds(j: Json)
    requires RouteRequest(j)
    ensures 2 <= |j.fields["locations"].items| <= 20
    ensures j.fields["costing"].s in CostingModels
    ensures "alternates" in j.fields ==> 0.0 <= j.fields["alternates"].n <= 5.0
    ensures "directions_options" in j.fields && "language" in j.fields["directions_options"].fields ==>
      2 <= |j.fields["directions_options"].fields["language"].s| <= 5
  {
  }

  /** An accepted isochrone request has 1 to 5 locations, 1 to 4 contours with their ranges, and bounded smoothing. */
  lemma IsochroneRequestBounds(j: Json, k: nat)
    requires IsochroneRequest(j)
    ensures 1 <= |j.fields["locations"].items| <= 5
    ensures 1 <= |j.fields["contours"].items| <= 4
    ensures "denoise" in j.fields ==> 0.0 <= j.fields["denoise"].n <= 1.0
    ensures "generalize" in j.fields ==> 0.0 <= j.fields["generalize"].n <= 1000.0
    ensures k < |j.fields["contours"].items| ==>
      var c := j.fields["contours"].items[k].fields;
      && ("time" in c ==> 1.0 <= c["time"].n <= 120.0)
      && ("distance" in c ==> 0.1 <= c["distance"].n <= 100.0)
      && ("color" in c ==> |c["color"].s| == 6)
  {
  }

  /** An accepted tile has both indices below 2^z. */
  lemma TileBelowPow2(j: Json)
    requires TileRequest(j)
    ensures var z := j.fields["z"].n.Floor;
      0 <= z <= 18 && j.fields["x"].n < Pow2(z) as real && j.fields["y"].n < Pow2(z) as real
  {
  }

  // Splitting a joined path recovers its segments

  /** `s.split('.')`. */
  function SplitPath(s: string): (parts: seq<string>)
    ensures |parts| >= 1
  {
    if s == [] then [""]
    else
      var rest := SplitPath(s[1..]);
      if s[0] == '.' then [""] + rest else [[s[0]] + rest[0]] + rest[1..]
  }

  predicate NoDot(s: string) {
    forall k | 0 <= k < |s| :: s[k] != '.'
  }

  lemma {:induction false} SplitNoDot(a: string)
    requires NoDot(a)
    ensures SplitPath(a) == [a]
  {
    if a != [] {
      SplitNoDot(a[1..]);
      assert [a[0]] + a[1..] == a;
    }
  }

  lemma {:induction false} SplitAtDot(a: string, b: string)
    requires NoDot(a)
    ensures SplitPath(a + "." + b) == [a] + SplitPath(b)
  {
    if a == [] {
      assert a + "." + b == ['.'] + b;
      assert (['.'] + b)[1..] == b;
    } else {
      SplitAtDot(a[1..], b);
      assert (a + "." + b)[1..] == a[1..] + "." + b;
      assert [a[0]] + a[1..] == a;
    }
  }

  lemma {:induction false} DigitsHaveNoDot(n: nat)
    ensures NoDot(NatToString(n))
  {
  }

  function SegmentTexts(path: seq<PathSegment>): (r: seq<string>)
    ensures |r| == |path|
  {
    if path == [] then [] else [SegmentText(path[0])] + SegmentTexts(path[1..])
  }

  /** No field name contains a dot. */
  predicate PlainFields(path: seq<PathSegment>) {
    forall k | 0 <= k < |path| :: path[k].Field? ==> NoDot(path[k].name)
  }

  /** Joining with "." loses nothing when no field name contains a dot. */
  lemma {:induction false} JoinPathSplits(path: seq<PathSegment>)
    requires path != [] && PlainFields(path)
    ensures SplitPath(JoinPath(path)) == SegmentTexts(path)
  {
    assert NoDot(SegmentText(path[0])) by {
      if path[0].Index? { DigitsHaveNoDot(path[0].position); }
    }
    if |path| == 1 {
      SplitNoDot(SegmentText(path[0]));
    } else {
      JoinPathSplits(path[1..]);
      SplitAtDot(SegmentText(path[0]), JoinPath(path[1..]));
    }
  }
}
