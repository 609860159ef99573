/**
 * The construction every response wrapper shares (the `FacebookResponse<T>`
 * base): validate the raw response, then parse its body with the resource's
 * parser. `ValidateResponse` and `ParseJsonObject` are not part of this model;
 * they are the two functions of a `ResponseBase`, of which nothing is assumed
 * but their types.
 */
module Responses {
  import opened Wrappers
  import opened Json
  import opened Http

  /** The base-class operations the wrappers call. */
  datatype ResponseBase = ResponseBase(
    validate: RawResponse -> Outcome<Error>,
    parseJsonObject: string -> Result<JObject, Error>)

  /** A constructed response: the parsed body and the raw response it came from. */
  datatype FacebookResponse<T> = FacebookResponse(raw: RawResponse, body: T)

  /**
   * A wrapper's private constructor: `ValidateResponse(response)` first, and
   * only when it passes `Body = ParseJsonObject(response.Body, parser)`. A
   * failure at either step leaves no response at all.
   */
  function Construct<T>(base: ResponseBase, response: RawResponse, parser: JObject -> T)
    : (r: Result<FacebookResponse<T>, Error>)
    ensures base.validate(response).Fail? ==> r == Failure(base.validate(response).error)
    ensures base.validate(response).Pass? && base.parseJsonObject(response.body).Failure? ==>
      r == Failure(base.parseJsonObject(response.body).error)
    ensures r.Success? <==> base.validate(response).Pass? && base.parseJsonObject(response.body).Success?
    ensures r.Success? ==>
      r.value.raw == response && r.value.body == parser(base.parseJsonObject(response.body).value)
  {
    match base.validate(response)
    case Fail(e) => Failure(e)
    case Pass =>
      var obj :- base.parseJsonObject(response.body);
      Success(FacebookResponse(response, parser(obj)))
  }

  /** `ParseResponse`: `null` for a `null` response, the constructed response otherwise. */
  function ParseResponse<T>(base: ResponseBase, response: Option<RawResponse>, parser: JObject -> T)
    : (r: Result<Option<FacebookResponse<T>>, Error>)
    ensures response.None? ==> r == Success(None)
    ensures response.Some? ==>
      var built := Construct(base, response.value, parser);
      && (r.Success? <==> built.Success?)
      && (r.Failure? ==> r.error == built.error)
      && (r.Success? ==> r.value == Some(built.value))
  {
    if response.None? then Success(None)
    else
      var built :- Construct(base, response.value, parser);
      Success(Some(built))
  }

  /**
   * Validation comes first: when it fails, neither `ParseJsonObject` nor the
   * resource parser has any bearing on the outcome.
   */
  lemma ValidationFailureIgnoresParsing<T>(
    base: ResponseBase, other: string -> Result<JObject, Error>,
    response: RawResponse, parser: JObject -> T, otherParser: JObject -> T)
    requires base.validate(response).Fail?
    ensures ParseResponse(base, Some(response), parser)
         == ParseResponse(base.(parseJsonObject := other), Some(response), otherParser)
         == Failure(base.validate(response).error)
  {
  }

  /** A response that fails validation and has a malformed body reports the validation error. */
  lemma ValidationErrorTakesPrecedence<T>(base: ResponseBase, response: RawResponse, parser: JObject -> T)
    requires base.validate(response).Fail? && base.parseJsonObject(response.body).Failure?
    ensures ParseResponse(base, Some(response), parser) == Failure(base.validate(response).error)
  {
  }

  /**
   * A caller only ever sees a response whose body was parsed from a validated
   * payload, together with the very raw response it came from.
   */
  lemma NoUnvalidatedBody<T>(base: ResponseBase, response: RawResponse, parser: JObject -> T)
    ensures var r := ParseResponse(base, Some(response), parser);
      r.Success? ==>
        && base.validate(response).Pass?
        && base.parseJsonObject(response.body).Success?
        && r.value == Some(FacebookResponse(response, parser(base.parseJsonObject(response.body).value)))
  {
  }
}
