/**
 * The isochrone tool (src/tools/isochrone.ts).
 *
 * The tool asks the engine for one time contour, coloured "ff0000", around one
 * location, as polygons, and returns the engine's answer unchanged; a failed
 * call is reported as an "isochrone_error" result. The engine is a function
 * parameter.
 */
module Isochrone {
  import opened Wrappers
  import opened Js
  import Engine
  import Validation
  import Route

  /** The arguments after the input schema; a missing mode is "auto". */
  datatype IsochroneInput = IsochroneInput(origin: Engine.Coordinate, minutes: real, mode: Engine.Costing)

  const ContourColor := "ff0000"

  /** The tool's input schema, over the raw arguments. */
  predicate IsochroneArgs(j: Json) {
    && j.JObj?
    && "origin" in j.fields && Validation.Coordinate(j.fields["origin"])
    && "minutes" in j.fields && Validation.NumberIn(j.fields["minutes"], 1.0, 120.0)
    && (Validation.Absent(j.fields, "mode") || Validation.OneOf(j.fields["mode"], Validation.CostingModels))
  }

  function IsochroneInputOf(j: Json): IsochroneInput
    requires IsochroneArgs(j)
  {
    var f := j.fields;
    IsochroneInput(
      Route.CoordinateOf(f["origin"]),
      f["minutes"].n,
      if "mode" in f then Route.CostingOf(f["mode"].s) else Engine.Auto)
  }

  predicate ValidInput(input: IsochroneInput) {
    Route.InRange(input.origin) && 1.0 <= input.minutes <= 120.0
  }

  /** The request the tool sends: the origin, the mode, one contour of `minutes`, polygons on. */
  function IsochroneRequestFor(input: IsochroneInput): Engine.IsochroneRequest {
    Engine.IsochroneRequest(
      [Engine.Coordinate(input.origin.lat, input.origin.lon)],
      input.mode,
      [Engine.Contour(Some(input.minutes), None, Some(ContourColor))],
      Some(true),
      None,
      None)
  }

  function IsochroneError(message: string): Engine.ToolResult {
    Engine.ToolResult(Engine.ErrorPayload("Failed to generate isochrone", message, "isochrone_error"), true)
  }

  /** The tool's result for the engine's answer to its request. */
  function IsochroneResult(answer: Result<Json, Engine.Thrown>): Engine.ToolResult {
    match answer
    case Success(response) => Engine.ToolResult(response, false)
    case Failure(thrown) => IsochroneError(Engine.ErrorMessage(thrown))
  }

  /** The isochrone tool, given the engine's answer to each request. */
  function IsochroneTool(input: IsochroneInput, engine: Engine.IsochroneRequest -> Result<Json, Engine.Thrown>): Engine.ToolResult {
    IsochroneResult(engine(IsochroneRequestFor(input)))
  }

  // Properties

  /** Accepted arguments give a valid input; a missing mode means "auto". */
  lemma ArgsGiveValidInput(j: Json)
    requires IsochroneArgs(j)
    ensures ValidInput(IsochroneInputOf(j))
    ensures "mode" !in j.fields ==> IsochroneInputOf(j).mode == Engine.Auto
  {
  }

  /** One location, the origin; one contour, of `minutes`, in "ff0000"; polygons, and nothing else set. */
  lemma IsochroneRequestShape(input: IsochroneInput)
    ensures var r := IsochroneRequestFor(input);
      && |r.locations| == 1 && r.locations[0] == input.origin
      && r.costing == input.mode
      && |r.contours| == 1
      && r.contours[0].time == Some(input.minutes) && r.contours[0].distance.None?
      && r.contours[0].color == Some("ff0000")
      && r.polygons == Some(true) && r.denoise.None? && r.generalize.None?
  {
  }

  /** For a valid input the request satisfies `isochroneRequestSchema`. */
  lemma IsochroneRequestValid(input: IsochroneInput)
    requires ValidInput(input)
    ensures Validation.IsochroneRequest(Engine.IsochroneRequestJson(IsochroneRequestFor(input)))
  {
    var r := IsochroneRequestFor(input);
    var j := Engine.IsochroneRequestJson(r);
    assert j.fields["locations"].items == [Engine.CoordinateJson(r.locations[0])];
    var contour := Engine.ContourJson(r.contours[0]);
    assert j.fields["contours"].items == [contour];
    assert contour.fields == map["time" := JNum(input.minutes), "color" := JStr(ContourColor)];
    assert Validation.HexColor(ContourColor) by {
      forall k | 0 <= k < |ContourColor|
        ensures Validation.IsHexDigit(ContourColor[k])
      {
      }
    }
    assert Validation.Contour(contour);
    assert Validation.Coordinate(j.fields["locations"].items[0]);
    assert j.fields.Keys <= Validation.IsochroneKeys;
    assert j.fields["costing"] == JStr(Engine.CostingName(input.mode));
  }

  /** The engine's answer is returned as it is; a failed call is an "isochrone_error" with the thrown message. */
  lemma AnswerPassesThrough(input: IsochroneInput, engine: Engine.IsochroneRequest -> Result<Json, Engine.Thrown>)
    ensures var answer, r := engine(IsochroneRequestFor(input)), IsochroneTool(input, engine);
      && (r.isError <==> answer.Failure?)
      && (answer.Success? ==> r.payload == answer.value)
      && (answer.Failure? ==> r.payload == Engine.ErrorPayload("Failed to generate isochrone",
            Engine.ErrorMessage(answer.error), "isochrone_error"))
  {
  }

  /** A thrown non-`Error` value is reported as "Unknown error". */
  lemma NonErrorIsUnknown()
    ensures IsochroneResult(Failure(Engine.NonErrorValue)).payload.fields["message"] == JStr("Unknown error")
  {
  }
}
