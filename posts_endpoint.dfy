/**
 * `FacebookPostsEndpoint`: the typed posts endpoint. Every overload becomes
 * one options value (or one identifier), one raw-endpoint call and one
 * `ParseResponse`. The transport (`DoHttpGetRequest`) and the resource
 * parsers are collaborators given as parameters.
 */
module PostsEndpoint {
  import opened Wrappers
  import opened Json
  import opened Http
  import PostsRaw
  import Responses
  import PostsResponse

  /** The service; only its OAuth client matters to this endpoint. */
  datatype FacebookService = FacebookService(client: OAuthClient)

  /** The endpoint holds the service it was made with and nothing else. */
  datatype FacebookPostsEndpoint = FacebookPostsEndpoint(service: FacebookService)

  /**
   * The collaborators outside this model: the transport, the response base,
   * `FacebookPost.Parse` and `FacebookPostsCollection.Parse`.
   */
  datatype Collaborators<Post, Posts> = Collaborators(
    transport: Request -> Result<RawResponse, Error>,
    base: Responses.ResponseBase,
    parsePost: JObject -> Post,
    parsePostsCollection: JObject -> Posts)

  /**
   * The `Raw` property, `Service.Client.Posts`: the posts raw endpoint of the
   * service's client (the client class, not part of this model, is assumed to
   * make that endpoint over itself).
   */
  function Raw(ep: FacebookPostsEndpoint): (r: PostsRaw.FacebookPostsRawEndpoint)
    ensures r.client == ep.service.client
  {
    PostsRaw.FacebookPostsRawEndpoint(ep.service.client)
  }

  /**
   * Issue one request through the transport and hand the raw response to
   * `ParseResponse`. A transport failure is surfaced unchanged.
   */
  function Send<Post, Posts, T>(c: Collaborators<Post, Posts>, request: Request, parse: JObject -> T)
    : (r: Result<Option<Responses.FacebookResponse<T>>, Error>)
    ensures c.transport(request).Failure? ==> r == Failure(c.transport(request).error)
    ensures c.transport(request).Success? ==>
      r == Responses.ParseResponse(c.base, Some(c.transport(request).value), parse)
  {
    var response :- c.transport(request);
    Responses.ParseResponse(c.base, Some(response), parse)
  }

  /** A built request is sent; a failure to build one is surfaced before anything is sent. */
  function SendBuilt<Post, Posts, T>(c: Collaborators<Post, Posts>, request: Result<Request, Error>, parse: JObject -> T)
    : (r: Result<Option<Responses.FacebookResponse<T>>, Error>)
    ensures request.Failure? ==> r == Failure(request.error)
    ensures request.Success? ==> r == Send(c, request.value, parse)
  {
    var built :- request;
    Send(c, built, parse)
  }

  /**
   * `GetPost(id)`: sends `"/" + id` with no options through the service's
   * client and parses the response as a post.
   */
  function GetPost<Post, Posts>(ep: FacebookPostsEndpoint, c: Collaborators<Post, Posts>, id: Option<string>)
    : (r: Result<Option<Responses.FacebookResponse<Post>>, Error>)
    ensures r == Send(c, Request(ep.service.client, "/" + Text(id), None), c.parsePost)
  {
    SendBuilt(c, PostsRaw.GetPost(Raw(ep), id), c.parsePost)
  }

  /**
   * `GetPost(options)`: null options fail with `ArgumentNullException("options")`
   * and nothing is sent; otherwise `"/" + options.Identifier` is sent with the
   * options attached.
   */
  function GetPostWith<Post, Posts>(ep: FacebookPostsEndpoint, c: Collaborators<Post, Posts>, options: Option<PostOptions>)
    : (r: Result<Option<Responses.FacebookResponse<Post>>, Error>)
    ensures options.None? ==> r == Failure(ArgumentNull("options"))
    ensures options.Some? ==> r == Send(c,
      Request(ep.service.client, "/" + Text(options.value.identifier), Some(PostQuery(options.value))), c.parsePost)
  {
    SendBuilt(c, PostsRaw.GetPostWith(Raw(ep), options), c.parsePost)
  }

  /**
   * `GetPosts(options)`: null options fail with `ArgumentNullException("options")`
   * before anything is sent or parsed; otherwise `"/" + Identifier + "/posts"`
   * is sent with the options attached and parsed by `FacebookGetPostsResponse`.
   */
  function GetPosts<Post, Posts>(ep: FacebookPostsEndpoint, c: Collaborators<Post, Posts>, options: Option<PostsOptions>)
    : (r: Result<Option<Responses.FacebookResponse<Posts>>, Error>)
    ensures options.None? ==> r == Failure(ArgumentNull("options"))
    ensures options.Some? ==>
      var request := Request(ep.service.client, "/" + Text(options.value.identifier) + "/posts",
                             Some(PostsQuery(options.value)));
      && (c.transport(request).Failure? ==> r == Failure(c.transport(request).error))
      && (c.transport(request).Success? ==>
            r == PostsResponse.ParseResponse(c.base, c.parsePostsCollection, Some(c.transport(request).value)))
  {
    var request :- PostsRaw.GetPosts(Raw(ep), options);
    var response :- c.transport(request);
    PostsResponse.ParseResponse(c.base, c.parsePostsCollection, Some(response))
  }

  /** `GetPosts(identifier)`: the options overload with `new FacebookGetPostsOptions(identifier)`. */
  function GetPostsOf<Post, Posts>(ep: FacebookPostsEndpoint, c: Collaborators<Post, Posts>, identifier: Option<string>)
    : (r: Result<Option<Responses.FacebookResponse<Posts>>, Error>)
    ensures var request := Request(ep.service.client, "/" + Text(identifier) + "/posts",
                                   Some(PostsQuery(PostsOptions(identifier, None))));
      && (c.transport(request).Failure? ==> r == Failure(c.transport(request).error))
      && (c.transport(request).Success? ==>
            r == PostsResponse.ParseResponse(c.base, c.parsePostsCollection, Some(c.transport(request).value)))
  {
    GetPosts(ep, c, Some(PostsOptions(identifier, None)))
  }

  /**
   * `GetPosts(identifier, limit)`: the options overload with options whose
   * `Identifier` is `identifier` and whose `Limit` is `limit`.
   */
  function GetPostsLimited<Post, Posts>(
    ep: FacebookPostsEndpoint, c: Collaborators<Post, Posts>, identifier: Option<string>, limit: int32)
    : (r: Result<Option<Responses.FacebookResponse<Posts>>, Error>)
    ensures var request := Request(ep.service.client, "/" + Text(identifier) + "/posts",
                                   Some(PostsQuery(PostsOptions(identifier, Some(limit)))));
      && (c.transport(request).Failure? ==> r == Failure(c.transport(request).error))
      && (c.transport(request).Success? ==>
            r == PostsResponse.ParseResponse(c.base, c.parsePostsCollection, Some(c.transport(request).value)))
  {
    GetPosts(ep, c, Some(PostsOptions(identifier, Some(limit))))
  }

  /** The identifier overloads are the options overload applied to the options they build. */
  lemma OverloadsDelegate<Post, Posts>(
    ep: FacebookPostsEndpoint, c: Collaborators<Post, Posts>, identifier: Option<string>, limit: int32)
    ensures GetPostsOf(ep, c, identifier) == GetPosts(ep, c, Some(PostsOptions(identifier, None)))
    ensures GetPostsLimited(ep, c, identifier, limit) == GetPosts(ep, c, Some(PostsOptions(identifier, Some(limit))))
  {
  }

  /** `GetPosts("me", 5)` sends `/me/posts` with options whose `Limit` is 5. */
  lemma MePostsWithLimitFive<Post, Posts>(ep: FacebookPostsEndpoint, c: Collaborators<Post, Posts>)
    ensures GetPostsLimited(ep, c, Some("me"), 5)
         == Send(c, Request(ep.service.client, "/me/posts", Some(PostsQuery(PostsOptions(Some("me"), Some(5))))),
                 c.parsePostsCollection)
  {
    assert "/" + Text(Some("me")) + "/posts" == "/me/posts";
  }

  /**
   * With null options, the outcome is the same argument error whatever the
   * transport, the response base or the parsers do: nothing is sent or parsed.
   */
  lemma NullOptionsNeverSent<Post, Posts>(ep: FacebookPostsEndpoint, c: Collaborators<Post, Posts>, d: Collaborators<Post, Posts>)
    ensures GetPosts(ep, c, None) == GetPosts(ep, d, None) == Failure(ArgumentNull("options"))
    ensures GetPostWith(ep, c, None) == GetPostWith(ep, d, None) == Failure(ArgumentNull("options"))
  {
  }

  /** Every request the endpoint sends goes through the client of the service it was made with. */
  lemma RequestsUseServiceClient(ep: FacebookPostsEndpoint, id: Option<string>, options: PostsOptions)
    ensures PostsRaw.GetPost(Raw(ep), id).value.client == ep.service.client
    ensures PostsRaw.GetPostWith(Raw(ep), Some(PostOptions(id))).value.client == ep.service.client
    ensures PostsRaw.GetPosts(Raw(ep), Some(options)).value.client == ep.service.client
  {
  }
}
