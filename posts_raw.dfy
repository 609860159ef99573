/**
 * `FacebookPostsRawEndpoint`: builds the request for each posts call. The HTTP
 * call is replaced by the `Request` value it would be given; the thrown
 * `ArgumentNullException` by a `Failure`.
 */
module PostsRaw {
  import opened Wrappers
  import opened Http

  /** The raw endpoint; `client` is set once, when the endpoint is made. */
  datatype FacebookPostsRawEndpoint = FacebookPostsRawEndpoint(client: OAuthClient)

  /** The path of the posts list of `identifier`: `"/" + identifier + "/posts"`. */
  function PostsPath(identifier: Option<string>): string {
    "/" + Text(identifier) + "/posts"
  }

  /** Reads the identifier back out of a posts-list path. */
  function PostsPathIdentifier(path: string): string
    requires |path| >= 7
  {
    path[1..|path| - 6]
  }

  /** `GetPost(postId)`: path `"/" + postId`, no options, and no check of `postId`. */
  function GetPost(raw: FacebookPostsRawEndpoint, postId: Option<string>): (r: Result<Request, Error>)
    ensures r.Success?
    ensures r.value.client == raw.client && r.value.options.None?
    ensures |r.value.path| == 1 + |Text(postId)|
    ensures r.value.path[0] == '/' && r.value.path[1..] == Text(postId)
  {
    Success(Request(raw.client, "/" + Text(postId), None))
  }

  /**
   * `GetPost(options)`: null options fail with `ArgumentNullException("options")`;
   * otherwise path `"/" + options.Identifier`, forwarding the same options.
   */
  function GetPostWith(raw: FacebookPostsRawEndpoint, options: Option<PostOptions>): (r: Result<Request, Error>)
    ensures options.None? <==> r.Failure?
    ensures r.Failure? ==> r.error == ArgumentNull("options")
    ensures r.Success? ==>
      && r.value.client == raw.client
      && r.value.options == Some(PostQuery(options.value))
      && |r.value.path| == 1 + |Text(options.value.identifier)|
      && r.value.path[..1] == "/" && r.value.path[1..] == Text(options.value.identifier)
  {
    if options.None? then Failure(ArgumentNull("options"))
    else Success(Request(raw.client, "/" + Text(options.value.identifier), Some(PostQuery(options.value))))
  }

  /**
   * `GetPosts(options)`: null options fail with `ArgumentNullException("options")`;
   * otherwise the path starts with "/", ends with "/posts" and holds the
   * identifier verbatim in between, and the same options are forwarded.
   */
  function GetPosts(raw: FacebookPostsRawEndpoint, options: Option<PostsOptions>): (r: Result<Request, Error>)
    ensures options.None? <==> r.Failure?
    ensures r.Failure? ==> r.error == ArgumentNull("options")
    ensures r.Success? ==>
      var p, id := r.value.path, Text(options.value.identifier);
      && r.value.client == raw.client
      && r.value.options == Some(PostsQuery(options.value))
      && |p| == |id| + 7
      && p[..1] == "/" && p[|p| - 6..] == "/posts" && p[1..|p| - 6] == id
  {
    if options.None? then Failure(ArgumentNull("options"))
    else Success(Request(raw.client, PostsPath(options.value.identifier), Some(PostsQuery(options.value))))
  }

  /** The identifier can be read back from the path: the path building loses nothing but null-ness. */
  lemma PostsPathRoundTrip(identifier: Option<string>)
    ensures |PostsPath(identifier)| >= 7
    ensures PostsPathIdentifier(PostsPath(identifier)) == Text(identifier)
  {
  }

  /** Distinct non-null identifiers give distinct paths. */
  lemma PostsPathInjective(a: string, b: string)
    requires a != b
    ensures PostsPath(Some(a)) != PostsPath(Some(b))
  {
    PostsPathRoundTrip(Some(a));
    PostsPathRoundTrip(Some(b));
  }

  /** A null identifier and an empty one request the same path, `//posts`. */
  lemma NullIdentifierPath()
    ensures PostsPath(None) == PostsPath(Some("")) == "//posts"
  {
  }
}
