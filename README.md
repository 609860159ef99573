# Facebook Graph API client: parsing and endpoint layering

This project models the core of a typed client for the Facebook Graph API, written in C#.
It covers three parts:

- **Domain object parsers.** `FacebookUser`, `FacebookPaymentOptions` and `FacebookCursors`
  read fixed keys of a JSON object into immutable records. Each `Parse` maps `null` to `null`,
  and every property has a total default.
- **Raw endpoints.** `FacebookPostsRawEndpoint` and `FacebookAccountsRawEndpoint` null-check
  their arguments and build a request path. The HTTP call is replaced by the `Request` value it
  would be given: client, path and options. A thrown `ArgumentNullException("options")` becomes
  `Failure(ArgumentNull("options"))`.
- **Typed endpoint and response wrappers.** `FacebookPostsEndpoint` turns each overload into a
  single options value, makes one raw call and pipes the raw response through `ParseResponse`.
  `FacebookGetPostsResponse`, `FacebookGetLinkResponse` and `FacebookGetPageResponse` validate
  the raw response first and only then parse its body.

Everything is pure Dafny: datatypes, functions and lemmas. A C# `null` is `None`; an
exception is a `Failure`.

Some collaborators are not part of this model. Each becomes a function-typed parameter of
which nothing is assumed but its type (with one exception, below):

- the nested parsers `FacebookEntity.Parse`, `FacebookCoverPhoto.Parse`, `FacebookPost.Parse`,
  `FacebookPostsCollection.Parse`, `FacebookLink.Parse` and `FacebookPage.Parse`;
- the base-class operations `ValidateResponse` and `ParseJsonObject`;
- the transport `DoHttpGetRequest`.

The exception: every nested parser is taken to map a `null` object to `null`. So `GetArray`
turns an array element that is not an object into a `null` entry without calling the parser.

The JSON accessors of Skybrud.Essentials are written out in `json.dfy` as total functions.
Their contracts are ASSUMED, not verified against the library:

- an absent key or JSON `null` reads as `null`, `false` or `0`;
- an enum lookup falls back to its fallback member;
- `GetArray` yields `null` when there is no array.

The raw endpoints check only that `options` is non-null, and `GetPost(string)` checks
nothing. So `GetPost(null)` requests `/`, and
`GetPosts` with a null identifier requests `//posts`, the same path as an empty identifier
(`PostsRaw.NullIdentifierPath`).

`FacebookGetPostResponse`, which the typed `GetPost` uses, is not part of this model. It is
taken to follow the same validate-then-parse pattern as the three wrappers here.

## Model

| member | source | states |
|---|---|---|
| Users.Parse | src/Skybrud.Social.Facebook/Objects/Users/FacebookUser.cs:133-167 | null iff the input is null; each property is read from its own snake_case key; `languages` is the parsed array, element by element, or empty when there is no array; `timezone` is null exactly when `HasValue("timezone")` fails, else the `GetInt32` read; `gender` is a recognised name, else `Unknown` |
| Users.AllWhiteSpaceIff | src/Skybrud.Social.Facebook/Objects/Users/FacebookUser.cs:51 | the recursive white-space scan holds exactly when every character is white space |
| Users.HasEmailIff | src/Skybrud.Social.Facebook/Objects/Users/FacebookUser.cs:50-52 | `HasEmail` holds iff the email is non-null and has a character that is not white space (both directions) |
| Users.BlankEmailHasNoEmail | src/Skybrud.Social.Facebook/Objects/Users/FacebookUser.cs:50-52 | a null email, an empty one and a sample blank one (`" \t\r\n"`) give `HasEmail == false`; the general case is `HasEmailIff` |
| Users.EmptyObjectDefaults | src/Skybrud.Social.Facebook/Objects/Users/FacebookUser.cs:133-154 | an object with no keys yields null strings and objects, false flags, an empty `languages`, a null `timezone` and gender `Unknown` |
| Users.OnlyUserKeysMatter | src/Skybrud.Social.Facebook/Objects/Users/FacebookUser.cs:133-154 | parsing is deterministic: two objects that agree on the twenty keys read give equal users |
| Users.VerifiedFlagsIndependent | src/Skybrud.Social.Facebook/Objects/Users/FacebookUser.cs:143-152 | `IsVerified` reads `is_verified` and `Verified` reads `verified`; rewriting one key never changes the other property |
| Users.GenderUnknownUnlessNamed | src/Skybrud.Social.Facebook/Objects/Users/FacebookUser.cs:141 | `Male` or `Female` only comes from a string naming it (ignoring ASCII case) |
| Users.BogusGenderIsUnknown | src/Skybrud.Social.Facebook/Objects/Users/FacebookUser.cs:141 | `{"id":"1","gender":"bogus"}` gives id "1" and gender `Unknown` |
| Users.NameKeys | src/Skybrud.Social.Facebook/Objects/Users/FacebookUser.cs:134-153 | `Id`, `FirstName`, `LastName`, `MiddleName` come from `id`, `first_name`, `last_name`, `middle_name`; an absent `name` leaves `Name` null |
| Users.TimezoneCases | src/Skybrud.Social.Facebook/Objects/Users/FacebookUser.cs:151 | a numeric `timezone` is read as that offset; JSON null or no key gives a null `Timezone` |
| Pages.Parse | src/Skybrud.Social.Facebook/Objects/Pages/FacebookPaymentOptions.cs:39-53 | null iff the input is null; each of the five flags is true exactly when its key (`amex`, `cash_only`, `discover`, `mastercard`, `visa`) holds JSON true |
| Pages.AmexNotAmericanExpress | src/Skybrud.Social.Facebook/Objects/Pages/FacebookPaymentOptions.cs:40 | the key `american_express` has no effect |
| Pages.NoKeysAllFalse | src/Skybrud.Social.Facebook/Objects/Pages/FacebookPaymentOptions.cs:39-45 | an object with none of the five keys yields five false flags |
| Pages.FlagDependsOnOwnKey | src/Skybrud.Social.Facebook/Objects/Pages/FacebookPaymentOptions.cs:40-44 | rewriting any key other than a flag's own leaves that flag unchanged |
| Pages.FlagReadsItsKey | src/Skybrud.Social.Facebook/Objects/Pages/FacebookPaymentOptions.cs:40-44 | flag `i` is true iff key `i` of the key list holds JSON true |
| Pagination.FromObject | src/Skybrud.Social.Facebook/Objects/Pagination/FacebookCursors.cs:18-21 | the public constructor: `After` is the string at `after`, `Before` is the string at `before`, each null when no string is there |
| Pagination.Parse | src/Skybrud.Social.Facebook/Objects/Pagination/FacebookCursors.cs:27-29 | null iff the input is null; otherwise the two `GetString` reads |
| Pagination.ParseIsConstructor | src/Skybrud.Social.Facebook/Objects/Pagination/FacebookCursors.cs:18-29 | for a non-null object, `Parse` equals the public constructor |
| Pagination.ParseAfterBefore | src/Skybrud.Social.Facebook/Objects/Pagination/FacebookCursors.cs:19-20 | `{"after":"A","before":"B"}` gives `After == "A"` and `Before == "B"` |
| Pagination.CursorsIndependent | src/Skybrud.Social.Facebook/Objects/Pagination/FacebookCursors.cs:18-21 | `After` depends only on `after`, `Before` only on `before` |
| PostsRaw.GetPost | src/Skybrud.Social.Facebook/Endpoints/Raw/FacebookPostsRawEndpoint.cs:36-38 | never fails (no argument check); one request on the endpoint's client; path `/` followed by the id; no options |
| PostsRaw.GetPostWith | src/Skybrud.Social.Facebook/Endpoints/Raw/FacebookPostsRawEndpoint.cs:44-47 | fails with `ArgumentNull("options")` iff options are null; otherwise path `/` followed by the identifier, with the same options forwarded |
| PostsRaw.GetPosts | src/Skybrud.Social.Facebook/Endpoints/Raw/FacebookPostsRawEndpoint.cs:53-56 | fails with `ArgumentNull("options")` iff options are null; otherwise the path starts with `/`, ends with `/posts` and holds the identifier verbatim in between; options forwarded unchanged |
| PostsRaw.PostsPathRoundTrip | src/Skybrud.Social.Facebook/Endpoints/Raw/FacebookPostsRawEndpoint.cs:55 | the identifier is recovered from the posts path |
| PostsRaw.PostsPathInjective | src/Skybrud.Social.Facebook/Endpoints/Raw/FacebookPostsRawEndpoint.cs:55 | distinct non-null identifiers request distinct paths |
| PostsRaw.NullIdentifierPath | src/Skybrud.Social.Facebook/Endpoints/Raw/FacebookPostsRawEndpoint.cs:55 | a null identifier and an empty one both request `//posts` |
| AccountsRaw.GetAccounts | src/Skybrud.Social.Facebook/Endpoints/Raw/FacebookAccountsRawEndpoint.cs:41-43 | one request on the endpoint's client, fixed path `/me/accounts`, no options |
| AccountsRaw.GetAccountsWith | src/Skybrud.Social.Facebook/Endpoints/Raw/FacebookAccountsRawEndpoint.cs:52-55 | null options fail with `ArgumentNull("options")` and nothing else happens; otherwise `/me/accounts` with the options forwarded |
| AccountsRaw.OverloadsShareTarget | src/Skybrud.Social.Facebook/Endpoints/Raw/FacebookAccountsRawEndpoint.cs:42-54 | both overloads use the same client and path and differ only in the options attached |
| Responses.Construct | src/Skybrud.Social.Facebook/Responses/Posts/FacebookGetPostsResponse.cs:13-21 | a validation failure is the result; only after validation passes can a body-parse failure be the result; on success the raw response is kept and `Body` is the resource parser applied to the parsed body |
| Responses.ParseResponse | src/Skybrud.Social.Facebook/Responses/Posts/FacebookGetPostsResponse.cs:32-34 | null for a null response; otherwise it succeeds exactly when construction does, with the same response or error |
| Responses.ValidationFailureIgnoresParsing | src/Skybrud.Social.Facebook/Responses/Posts/FacebookGetPostsResponse.cs:16-19 | when validation fails, neither `ParseJsonObject` nor the resource parser affects the outcome: validation runs first |
| Responses.ValidationErrorTakesPrecedence | src/Skybrud.Social.Facebook/Responses/Posts/FacebookGetPostsResponse.cs:16-19 | a response that fails validation and has a malformed body reports the validation error |
| Responses.NoUnvalidatedBody | src/Skybrud.Social.Facebook/Responses/Posts/FacebookGetPostsResponse.cs:13-21 | any response a caller receives passed validation and has the parsed body and the original raw response |
| PostsResponse.ParseResponse | src/Skybrud.Social.Facebook/Responses/Posts/FacebookGetPostsResponse.cs:13-34 | null for null; a validation failure yields that error and no response; a body-parse failure after validation yields that error; on success `Body` is `FacebookPostsCollection.Parse` of the parsed body and the raw response is retained |
| LinkResponse.ParseResponse | src/Skybrud.Social.Facebook/Responses/Links/FacebookGetLinkResponse.cs:13-34 | the same, with `FacebookLink.Parse` |
| PageResponse.ParseResponse | src/Skybrud.Social.Facebook/Responses/Pages/FacebookGetPageResponse.cs:13-34 | the same, with `FacebookPage.Parse` |
| PostsEndpoint.Raw | src/Skybrud.Social.Facebook/Endpoints/FacebookPostsEndpoint.cs:22-24 | the raw endpoint works on the service's own client |
| PostsEndpoint.GetPost | src/Skybrud.Social.Facebook/Endpoints/FacebookPostsEndpoint.cs:42-44 | sends `/` followed by the id with no options, through the service's client, and parses the response as a post |
| PostsEndpoint.GetPostWith | src/Skybrud.Social.Facebook/Endpoints/FacebookPostsEndpoint.cs:50-52 | null options give `ArgumentNull("options")`; otherwise it sends `/` followed by the identifier with the options attached and parses the response |
| PostsEndpoint.GetPosts | src/Skybrud.Social.Facebook/Endpoints/FacebookPostsEndpoint.cs:78-80 | null options give `ArgumentNull("options")`; otherwise it sends `/` + identifier + `/posts` with the options, surfaces a transport failure unchanged, and hands the raw response to `FacebookGetPostsResponse.ParseResponse` |
| PostsEndpoint.GetPostsOf | src/Skybrud.Social.Facebook/Endpoints/FacebookPostsEndpoint.cs:58-60 | sends `/` + identifier + `/posts` with options carrying the identifier and no limit, then parses the response |
| PostsEndpoint.GetPostsLimited | src/Skybrud.Social.Facebook/Endpoints/FacebookPostsEndpoint.cs:67-72 | sends `/` + identifier + `/posts` with options carrying the identifier and `Limit == limit`, then parses the response |
| PostsEndpoint.OverloadsDelegate | src/Skybrud.Social.Facebook/Endpoints/FacebookPostsEndpoint.cs:58-72 | both identifier overloads equal the options overload applied to the options they build |
| PostsEndpoint.MePostsWithLimitFive | src/Skybrud.Social.Facebook/Endpoints/FacebookPostsEndpoint.cs:67-79 | `GetPosts("me", 5)` sends `/me/posts` with options whose `Limit` is 5 |
| PostsEndpoint.NullOptionsNeverSent | src/Skybrud.Social.Facebook/Endpoints/FacebookPostsEndpoint.cs:50-80 | with null options the outcome is the argument error whatever the transport, response base and parsers do |
| PostsEndpoint.RequestsUseServiceClient | src/Skybrud.Social.Facebook/Endpoints/FacebookPostsEndpoint.cs:17-32 | the requests built for `GetPost(id)`, `GetPost(options)` and `GetPosts(options)` (to which the identifier overloads delegate) all carry the client of the service the endpoint was made with |

## Left out

- HTTP transport and OAuth: `DoHttpGetRequest` is a parameter from `Request` to a raw response or an error. Network behaviour, authentication and retries are not modelled.
- The `FacebookResponse<T>` base: `ValidateResponse` (status and error-envelope checks, error codes) and `ParseJsonObject` (JSON text parsing) are parameters with only their types known.
- Update in place: the wrappers' constructors write `Body` once, after `ValidateResponse` returns. They are modelled as one function that validates and then builds the response value. An exception out of the validation step is the early `Failure` exit, so no partly built object exists in the model.
- Nested parsers (`FacebookEntity`, `FacebookCoverPhoto`, `FacebookPost`, `FacebookPostsCollection`, `FacebookLink`, `FacebookPage`): parameters; the records are generic over what they return.
- Nested parsers are total functions, so a schema error thrown by one of them (for example by `FacebookPostsCollection.Parse` inside `ParseJsonObject`) cannot occur in the model. In the code such an exception aborts the wrapper's constructor. `Responses.Construct` and the wrappers succeed after validation and JSON parsing only because of this.
- JSON numbers are integers only. A fractional value such as a `timezone` of 5.5, which `GetInt32` converts in the code, cannot be represented.
- The options classes: only `Identifier` and `Limit` are modelled, and `FacebookGetAccountsOptions` is opaque. Their query-string rendering is not modelled. A limit that was never set is `None`.
- Library conversions: `GetString` does not turn numbers or booleans into text, and `GetBoolean` and `GetInt32` do not parse strings. A present value of the wrong kind reads as the default rather than throwing or converting. An out-of-range integer reads as `0` rather than throwing.
- `GetEnum`: the name is matched ignoring ASCII case only. Numeric values, surrounding white space and non-ASCII case folding are not modelled.
- The raw `JObject` kept by the `FacebookObject` base is only for debugging and is not modelled.
- The `FacebookOAuthClient` class: only its identity is modelled, by its access token, so two distinct clients with the same token are equal in the model. Its `Posts` property is taken to be a posts raw endpoint over that same client.
- Thread safety: there is no concurrency in the code. Endpoints are immutable datatypes, so `Client` and `Service` can never be reassigned.
