/** `FacebookGetPageResponse`: the response of a call to get a single page. */
module PageResponse {
  import opened Wrappers
  import opened Json
  import opened Http
  import Responses

  /**
   * `FacebookGetPageResponse.ParseResponse`: `null` for a `null` response; otherwise the raw
   * response is validated and only then is its body parsed with
   * `FacebookPage.Parse` (given as `parsePage`; it is not part of this model).
   */
  function ParseResponse<Page>(
    base: Responses.ResponseBase, parsePage: JObject -> Page, response: Option<RawResponse>)
    : (r: Result<Option<Responses.FacebookResponse<Page>>, Error>)
    ensures response.None? ==> r == Success(None)
    ensures response.Some? ==>
      (r.Success? <==> base.validate(response.value).Pass? && base.parseJsonObject(response.value.body).Success?)
    ensures response.Some? && base.validate(response.value).Fail? ==>
      r == Failure(base.validate(response.value).error)
    ensures response.Some? && base.validate(response.value).Pass? && base.parseJsonObject(response.value.body).Failure? ==>
      r == Failure(base.parseJsonObject(response.value.body).error)
    ensures response.Some? && r.Success? ==>
      && base.validate(response.value).Pass?
      && base.parseJsonObject(response.value.body).Success?
      && r.value == Some(Responses.FacebookResponse(
           response.value, parsePage(base.parseJsonObject(response.value.body).value)))
  {
    Responses.ParseResponse(base, response, parsePage)
  }
}
