/** `FacebookGetPostsResponse`: the response of a call to get a collection of posts. */
module PostsResponse {
  import opened Wrappers
  import opened Json
  import opened Http
  import Responses

  /**
   * `FacebookGetPostsResponse.ParseResponse`: `null` for a `null` response; otherwise the raw
   * response is validated and only then is its body parsed with
   * `FacebookPostsCollection.Parse` (given as `parsePosts`; it is not part of this model).
   */
  function ParseResponse<Posts>(
    base: Responses.ResponseBase, parsePosts: JObject -> Posts, response: Option<RawResponse>)
    : (r: Result<Option<Responses.FacebookResponse<Posts>>, Error>)
    ensures response.None? ==> r == Success(None)
    ensures response.Some? ==>
      (r.Success? <==> base.validate(response.value).Pass? && base.parseJsonObject(response.value.body).Success?)
    ensures response.Some? && base.validate(response.value).Fail? ==>
      r == Failure(base.validate(response.value).error)
    ensures response.Some? && base.validate(response.value).Pass? && base.parseJsonObject(response.value.body).Failure? ==>
      r == Failure(base.parseJsonObject(response.value.body).error)
    ensures response.Some? && r.Success? ==>
      && base.validate(response.value).Pass?
      && base.parseJsonObject(response.value.body).Success?
      && r.value == Some(Responses.FacebookResponse(
           response.value, parsePosts(base.parseJsonObject(response.value.body).value)))
  {
    Responses.ParseResponse(base, response, parsePosts)
  }
}
