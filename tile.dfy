/**
 * The vector-tile resource handler (src/resources/tile.ts).
 *
 * The handler parses the three URI template values with `parseInt`, runs an
 * ordered chain of checks, and only then asks the engine for the tile. Any
 * failure, of the checks or of the fetch, becomes a JSON error content that
 * echoes the raw template values. The fetch is a function parameter.
 */
module Tile {
  import opened Wrappers
  import opened Js
  import Engine
  import Validation

  type Byte = b: int | 0 <= b < 256

  /** The raw values of `tile://{z}/{x}/{y}`. */
  datatype TileParams = TileParams(z: string, x: string, y: string)

  datatype TileCoords = TileCoords(zoom: int, x: int, y: int)

  /** A resource content item; `blob` holds the tile bytes (their base64 text is not modelled). */
  datatype Content =
    | BlobContent(uri: string, mimeType: string, blob: seq<Byte>)
    | TextContent(uri: string, mimeType: string, text: Json)

  const InvalidCoordinatesMessage := "Invalid tile coordinates"
  const ZoomRangeMessage := "Zoom level must be between 0 and 18"
  const MaxZoom := 18

  function OutOfRangeMessage(zoom: int): string {
    "Tile coordinates out of range for zoom level " + IntToString(zoom)
  }

  /** The guard chain: the first failing check decides the message. */
  function CheckTileParams(p: TileParams): Result<TileCoords, string> {
    var zoom, tileX, tileY := ParseInt(p.z), ParseInt(p.x), ParseInt(p.y);
    if zoom.None? || tileX.None? || tileY.None? then
      Failure(InvalidCoordinatesMessage)
    else if zoom.value < 0 || zoom.value > MaxZoom then
      Failure(ZoomRangeMessage)
    else
      var maxTileIndex := Pow2(zoom.value) - 1;
      if tileX.value < 0 || tileX.value > maxTileIndex || tileY.value < 0 || tileY.value > maxTileIndex then
        Failure(OutOfRangeMessage(zoom.value))
      else
        Success(TileCoords(zoom.value, tileX.value, tileY.value))
  }

  /** The error content: the message, the kind "tile_error" and the raw z, x, y. */
  function ErrorContent(uri: string, p: TileParams, message: string): Content {
    var tile := JObj(map["z" := JStr(p.z), "x" := JStr(p.x), "y" := JStr(p.y)]);
    TextContent(uri, "application/json", JObj(map[
      "error" := JStr("Failed to fetch tile"),
      "message" := JStr(message),
      "type" := JStr("tile_error"),
      "tile" := tile]))
  }

  /** The resource handler, given the engine's tile fetch. */
  function TileResource(uri: string, p: TileParams, fetch: TileCoords -> Result<seq<Byte>, Engine.Thrown>): Content {
    match CheckTileParams(p)
    case Failure(message) => ErrorContent(uri, p, message)
    case Success(c) =>
      match fetch(c)
      case Success(data) => BlobContent(uri, "application/x-protobuf", data)
      case Failure(thrown) => ErrorContent(uri, p, Engine.ErrorMessage(thrown))
  }

  predicate InTileRange(zoom: nat, v: int) {
    0 <= v <= Pow2(zoom) - 1
  }

  // Properties of the guard

  /** The four outcomes of the chain, in order. */
  lemma GuardOrder(p: TileParams)
    ensures var zoom, tileX, tileY := ParseInt(p.z), ParseInt(p.x), ParseInt(p.y);
      && (zoom.None? || tileX.None? || tileY.None? ==> CheckTileParams(p) == Failure(InvalidCoordinatesMessage))
      && (zoom.Some? && tileX.Some? && tileY.Some? && !(0 <= zoom.value <= 18) ==>
            CheckTileParams(p) == Failure(ZoomRangeMessage))
      && (zoom.Some? && tileX.Some? && tileY.Some? && 0 <= zoom.value <= 18
          && !(InTileRange(zoom.value, tileX.value) && InTileRange(zoom.value, tileY.value)) ==>
            CheckTileParams(p) == Failure(OutOfRangeMessage(zoom.value)))
  {
  }

  /** The guard passes exactly for numeric z, x, y with z in [0, 18] and x, y in [0, 2^z - 1]. */
  lemma GuardAccepts(p: TileParams)
    ensures CheckTileParams(p).Success? <==>
      && ParseInt(p.z).Some? && ParseInt(p.x).Some? && ParseInt(p.y).Some?
      && 0 <= ParseInt(p.z).value <= 18
      && InTileRange(ParseInt(p.z).value, ParseInt(p.x).value)
      && InTileRange(ParseInt(p.z).value, ParseInt(p.y).value)
    ensures CheckTileParams(p).Success? ==>
      CheckTileParams(p).value == TileCoords(ParseInt(p.z).value, ParseInt(p.x).value, ParseInt(p.y).value)
  {
  }

  /** The engine is consulted only when the guard passes, and then only for the parsed tile. */
  lemma FetchOnlyWhenValid(uri: string, p: TileParams,
                           f: TileCoords -> Result<seq<Byte>, Engine.Thrown>,
                           g: TileCoords -> Result<seq<Byte>, Engine.Thrown>)
    ensures CheckTileParams(p).Failure? ==> TileResource(uri, p, f) == TileResource(uri, p, g)
    ensures CheckTileParams(p).Success? && f(CheckTileParams(p).value) == g(CheckTileParams(p).value) ==>
      TileResource(uri, p, f) == TileResource(uri, p, g)
  {
  }

  /** Every failure is a JSON content of kind "tile_error" that echoes the raw template values. */
  lemma FailuresAreJson(uri: string, p: TileParams, fetch: TileCoords -> Result<seq<Byte>, Engine.Thrown>)
    ensures var c := TileResource(uri, p, fetch);
      c.TextContent? ==>
        && c.mimeType == "application/json"
        && c.text.JObj? && "type" in c.text.fields && c.text.fields["type"] == JStr("tile_error")
        && "tile" in c.text.fields
        && c.text.fields["tile"] == JObj(map["z" := JStr(p.z), "x" := JStr(p.x), "y" := JStr(p.y)])
    ensures var c := TileResource(uri, p, fetch);
      c.BlobContent? <==> CheckTileParams(p).Success? && fetch(CheckTileParams(p).value).Success?
  {
  }

  /** For integer inputs, the guard accepts exactly what `tileRequestSchema` accepts. */
  lemma GuardMatchesSchema(z: int, x: int, y: int)
    ensures CheckTileParams(TileParams(IntToString(z), IntToString(x), IntToString(y))).Success?
      <==> Validation.TileRequest(JObj(map["z" := JNum(z as real), "x" := JNum(x as real), "y" := JNum(y as real)]))
  {
    GuardOnIntegers(z, x, y);
    SchemaOnIntegers(z, x, y);
  }

  predicate InBounds(z: int, x: int, y: int) {
    0 <= z <= MaxZoom && InTileRange(z, x) && InTileRange(z, y)
  }

  lemma GuardOnIntegers(z: int, x: int, y: int)
    ensures CheckTileParams(TileParams(IntToString(z), IntToString(x), IntToString(y))).Success? <==> InBounds(z, x, y)
  {
    ParseIntOfIntToString(z);
    ParseIntOfIntToString(x);
    ParseIntOfIntToString(y);
  }

  lemma SchemaOnIntegers(z: int, x: int, y: int)
    ensures Validation.TileRequest(JObj(map["z" := JNum(z as real), "x" := JNum(x as real), "y" := JNum(y as real)]))
      <==> InBounds(z, x, y)
  {
    var m := map["z" := JNum(z as real), "x" := JNum(x as real), "y" := JNum(y as real)];
    assert m["z"] == JNum(z as real) && m["x"] == JNum(x as real) && m["y"] == JNum(y as real);
    assert (z as real).Floor == z;
  }
}
