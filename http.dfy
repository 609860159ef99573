/**
 * What the endpoints exchange with the transport: the OAuth client, the
 * request options, the request descriptor, the raw response and the error
 * kinds. The transport itself (`FacebookOAuthClient.DoHttpGetRequest`) and the
 * options' query-string rendering are not part of this model.
 */
module Http {
  import opened Wrappers
  import opened Json

  /** The error kinds a call can end in, standing for the exceptions of the source. */
  datatype Error =
    | ArgumentNull(paramName: string)   // ArgumentNullException(paramName)
    | ApiError(description: string)     // raised by response validation
    | SchemaError(description: string)  // raised when the body is not the expected JSON
    | TransportError(description: string)

  /** The authenticated client; only its identity (the access token) is modelled. */
  datatype OAuthClient = OAuthClient(accessToken: Option<string>)

  /** `FacebookGetPostOptions`: the post identifier (a C# string, so possibly null). */
  datatype PostOptions = PostOptions(identifier: Option<string>)

  /** `FacebookGetPostsOptions`: the user or page identifier and the limit, if one was set. */
  datatype PostsOptions = PostsOptions(identifier: Option<string>, limit: Option<int32>)

  /**
   * `FacebookGetAccountsOptions`, opaque: the query parameters it renders to,
   * which the endpoints never look at.
   */
  datatype AccountsOptions = AccountsOptions(parameters: seq<(string, string)>)

  /** The options object handed to the transport with a request. */
  datatype QueryOptions =
    | PostQuery(post: PostOptions)
    | PostsQuery(posts: PostsOptions)
    | AccountsQuery(accounts: AccountsOptions)

  /** One call to `DoHttpGetRequest(path, options)` on `client`. */
  datatype Request = Request(client: OAuthClient, path: string, options: Option<QueryOptions>)

  /** `SocialHttpResponse`: status code and body text. */
  datatype RawResponse = RawResponse(statusCode: int, body: string)

  /** C# string concatenation treats a null string as empty. */
  function Text(s: Option<string>): (r: string)
    ensures s.None? ==> r == ""
    ensures s.Some? ==> r == s.value
  {
    if s.Some? then s.value else ""
  }
}
