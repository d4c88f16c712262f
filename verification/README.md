# Ellersoft.SignalR core, modelled in Dafny

Ellersoft.SignalR is a small layer over ASP.NET Core SignalR. It routes hub
classes by a naming convention and authenticates hub connections with JWT
bearer tokens. Browsers cannot set an `Authorization` header on a WebSocket or
Server-Sent Events handshake. The layer therefore lets a token arrive in the
`access_token` query parameter, but only on hub paths. This project models
the four parts of the layer that compute something:

- **Hub route naming** (`HubAttribute`, `BaseHub`). A hub class `ChatHub` is
  served at `/hubs/Chat`. The route is `Path.Combine("/", base, name)` with
  backslashes turned into slashes. `Path.Combine` is modelled as a fold over
  the segments for both kinds of host (`DotNetPath.Platform`: Unix and
  Windows). The model proves that the backslash replacement makes the route
  the same on both, for a base path with no backslash and no drive prefix
  such as `C:` and a class name of ASCII identifier characters. Other bases
  can differ: `\api` gives `/api/Chat` on Windows and `//api/Chat` on Unix.
- **Query-string token extraction** (`JwtMiddleware.GetTokenFromQueryString`).
  The hook copies the query token into the context when the token is non-empty
  and the request path lies in the segments of the hub base path. ASP.NET
  Core's `PathString.StartsWithSegments` is modelled in `PathStrings`, together
  with the implicit `string -> PathString` conversion, which throws on a
  non-empty base path without a leading `/`.
- **Validation parameters and token descriptor** (`JwtMiddleware`). These are
  built from the `Jwt:Key`, `Jwt:Audience` and `Jwt:Issuer` settings.
- **User-id resolution** (`NameUserIdProvider`). The user id is the first
  claim of the configured type, lower-cased.

`Extensions.ConfigureJwt` joins the halves. `Extensions.DefaultRoutesAcceptQueryTokens`
proves that every hub derived from `BaseHub` whose class name is made of
ASCII identifier characters, served under the default base `hubs`, accepts a
query-string token under the default hook base `/hubs`, on both platforms.
`Extensions.DefaultTypedRoutesAcceptQueryTokens` proves the same for hubs
derived from `BaseHub<T>`.

The two defaults have different forms: `hubs` for routes and `/hubs` for the
hook. Suppose an application passes one custom value, such as `api`, both to
`BaseHub.GetRoute<THub>("api")` and to `AddEllersoftJwt`. The direct call then
routes the hub under `/api`. The hook, however, throws `ArgumentException` on
every request whose query string carries a non-empty `access_token`; a token
sent in the `Authorization` header is unaffected. `JwtMiddleware.ExtractorExamples` shows
this with the value `hubs`. This holds only for direct calls of
`BaseHub.GetRoute<THub>`. `RegisterEndpoints` never feeds its `baseHubPath`
into the route. It reflects on `GetRoute<THub>` and invokes it with no
arguments, and it hands `baseHubPath` to `MapHub` as a separate argument
(HubAttribute.cs:31-42).

Exceptions are values of `Exceptions.Exception` inside `Wrappers.Result`. A
.NET null is `Wrappers.Option.None`. Time is `DateTime` ticks (100 ns),
passed in as a parameter.

Notes on the code:

- The hook needs a non-empty `access_token`; a present but empty one is ignored.
- The default user-id claim type is `ClaimTypes.Name`.
- The token lifetime is fixed at 7 days.
- A route can end in a slash: the base `hubs/` with a class named `Hub` gives `/hubs/`.

## Model

| member | source | states |
|---|---|---|
| HubAttribute.ConvertClassNameForRoute | Ellersoft.SignalR.Core/HubAttribute.cs:19-20 | the converted name is a prefix of the class name, with either nothing or three characters removed |
| AsciiText.EndsWith | Ellersoft.SignalR.Core/HubAttribute.cs:20 | `s.EndsWith(suffix)` holds exactly when s splits into some prefix followed by suffix |
| DotNetPath.Join | Ellersoft.SignalR.Core/HubAttribute.cs:23 | one step of Path.Combine: an empty segment changes nothing, a rooted segment replaces the path, any other segment lengthens it |
| DotNetPath.Combine | Ellersoft.SignalR.Core/HubAttribute.cs:23 | Path.Combine gives the empty string exactly when every segment is empty |
| DotNetPath.CombineSkipsEmpty | Ellersoft.SignalR.Core/HubAttribute.cs:23 | Path.Combine ignores an empty segment wherever it appears |
| DotNetPath.CombineRootedRestarts | Ellersoft.SignalR.Core/HubAttribute.cs:23 | a rooted segment discards every segment before it |
| DotNetPath.CombinePortable | Ellersoft.SignalR.Core/HubAttribute.cs:23 | after backslashes become '/', the Windows combination equals the Unix one for segments without backslash or drive prefix |
| HubAttribute.ConvertStripsOneSuffix | Ellersoft.SignalR.Core/HubAttribute.cs:19-20 | a name ending in "Hub" is the converted name plus "Hub"; any other name is kept whole; at most three characters go |
| HubAttribute.ConvertRoundTrip | Ellersoft.SignalR.Core/HubAttribute.cs:19-20 | appending "Hub" and converting gives the name back |
| HubAttribute.ConvertExamples | Ellersoft.SignalR.Core/HubAttribute.cs:19-20 | ChatHub -> Chat, Chathub kept (case-sensitive), HubHub -> Hub (once only), Hub -> empty |
| HubAttribute.GetRoute | Ellersoft.SignalR.Core/HubAttribute.cs:22-23 | a route never contains a backslash |
| AsciiText.Replace | Ellersoft.SignalR.Core/HubAttribute.cs:23 | `Replace("\\", "/")` keeps the length, changes each backslash to a slash and nothing else, and leaves no backslash behind |
| HubAttribute.RoutePlatformIndependent | Ellersoft.SignalR.Core/HubAttribute.cs:22-23 | for a base with no backslash and no drive prefix, and an ASCII type name, the route is the same on Windows and Unix |
| HubAttribute.RouteOfPlainBase | Ellersoft.SignalR.Core/HubAttribute.cs:22-23 | a plain base segment gives "/base/name", or "/base" when the stripped name is empty |
| HubAttribute.RouteOfEmptyBase | Ellersoft.SignalR.Core/HubAttribute.cs:22-23 | an empty base collapses to "/name" |
| HubAttribute.RouteOfRootedBase | Ellersoft.SignalR.Core/HubAttribute.cs:22-23 | a base starting with '/' is used as the root: the route is the base, base + "/" + name, or base + name when the base already ends in '/' (so "/" gives "/Chat") |
| HubAttribute.RouteStartsWithSlash | Ellersoft.SignalR.Core/HubAttribute.cs:22-23 | every route starts with '/' (on Windows unless the base names a drive) |
| HubAttribute.RouteOfChatHub | Ellersoft.SignalR.Core/HubAttribute.cs:13-23 | the default base "hubs" gives ChatHub the route "/hubs/Chat"; the bases "", "/", "/api" and "/api/" give "/Chat", "/Chat", "/api/Chat" and "/api/Chat" |
| HubAttribute.RouteOfLobby | Ellersoft.SignalR.Core/HubAttribute.cs:13-23 | Lobby is served at "/hubs/Lobby" |
| HubAttribute.RouteOfBareHub | Ellersoft.SignalR.Core/HubAttribute.cs:13-23 | a class named Hub is served at "/hubs" |
| HubAttribute.RoutesCollide | Ellersoft.SignalR.Core/HubAttribute.cs:19-23 | Chat and ChatHub share a route in any namespaces, so routes are not unique |
| HubAttribute.RoutesDistinguishStrippedNames | Ellersoft.SignalR.Core/HubAttribute.cs:19-23 | under a plain base, different stripped names give different routes |
| HubAttribute.RouteUnderBase | Ellersoft.SignalR.Core/HubAttribute.cs:22-23 | every route under a plain base lies in the segments of "/base" |
| BaseHub.GetRoute | Ellersoft.SignalR.Core/BaseHub.cs:16-17 | a null base path means "hubs"; any other base path is passed on unchanged |
| BaseHub.GetRouteTyped | Ellersoft.SignalR.Core/BaseHub.cs:31-32 | the same defaulting for hubs derived from BaseHub<T> |
| BaseHub.TypedAgreesWithUntyped | Ellersoft.SignalR.Core/BaseHub.cs:31-32 | the generic variant routes exactly like the plain one for the same simple name |
| BaseHub.DefaultRoute | Ellersoft.SignalR.Core/BaseHub.cs:16-17 | the default route equals the route for "hubs" and is "/hubs/name" (or "/hubs") |
| PathStrings.FromString | Ellersoft.SignalR.Core/JwtMiddleware.cs:71 | converting the base path succeeds exactly for null, empty or '/'-led strings, and otherwise throws ArgumentException |
| PathStrings.StartsWithSegments | Ellersoft.SignalR.Core/JwtMiddleware.cs:71 | a matching base is no longer than the path; the empty base matches exactly the empty or '/'-led paths; every path matches itself |
| PathStrings.SegmentAligned | Ellersoft.SignalR.Core/JwtMiddleware.cs:71 | base + rest starts with the segments of base iff rest is empty or starts with '/' |
| PathStrings.IgnoresCaseOfBase | Ellersoft.SignalR.Core/JwtMiddleware.cs:71 | segment matching ignores the case of the base path |
| PathStrings.Transitive | Ellersoft.SignalR.Core/JwtMiddleware.cs:71 | segment prefixes compose |
| PathStrings.Examples | Ellersoft.SignalR.Core/JwtMiddleware.cs:71 | "/hubs/Chat", "/hubs" and "/HUBS/Chat" match "/hubs"; "/hubsomething/Chat", "/hubs2" and "/api/data" do not |
| JwtMiddleware.AsciiGetBytes | Ellersoft.SignalR.Core/JwtMiddleware.cs:25 | one key byte per character, and non-ASCII characters become '?' |
| JwtMiddleware.AsciiKeyBytes | Ellersoft.SignalR.Core/JwtMiddleware.cs:25 | distinct ASCII key texts give distinct key bytes |
| JwtMiddleware.AsciiKeyCollision | Ellersoft.SignalR.Core/JwtMiddleware.cs:25 | outside ASCII the key encoding is not injective: "é" and "?" give the same key bytes |
| JwtMiddleware.Setting | Ellersoft.SignalR.Core/JwtMiddleware.cs:23-25 | a setting reads as null exactly when it is absent, and otherwise as its value |
| JwtMiddleware.NewSymmetricSecurityKey | Ellersoft.SignalR.Core/JwtMiddleware.cs:25 | the key holds the given bytes, and an empty byte string throws |
| JwtMiddleware.New | Ellersoft.SignalR.Core/JwtMiddleware.cs:20-26 | construction succeeds iff Jwt:Key is present and non-empty; a missing key gives ArgumentNullException and an empty one ArgumentException; audience and issuer are copied, null included |
| JwtMiddleware.DefaultValidationParameters | Ellersoft.SignalR.Core/Extensions.cs:73 | a fresh parameter object has no key, audience or issuer, and validates audience, issuer and lifetime but not the signing key |
| JwtMiddleware.GetValidationParameters | Ellersoft.SignalR.Core/JwtMiddleware.cs:44-53 | key, audience and issuer are installed; audience and issuer are validated iff non-null; key and lifetime are always validated; the other fields are unchanged |
| JwtMiddleware.ValidationParametersIdempotent | Ellersoft.SignalR.Core/JwtMiddleware.cs:44-53 | deriving the parameters twice equals deriving them once |
| JwtMiddleware.ValidationParametersDependOnlyOnUnassigned | Ellersoft.SignalR.Core/JwtMiddleware.cs:44-53 | the result depends on the initial object only through the fields that are not assigned |
| JwtMiddleware.AddDays | Ellersoft.SignalR.Core/JwtMiddleware.cs:40 | adds whole days in ticks, and throws past DateTime.MaxValue |
| JwtMiddleware.GetDescriptor | Ellersoft.SignalR.Core/JwtMiddleware.cs:34-42 | the subject is the given claims; audience and issuer come from the configuration; the token expires 7 days after now; credentials are the key with HMAC-SHA256 |
| JwtMiddleware.GetDescriptorForUser | Ellersoft.SignalR.Core/JwtMiddleware.cs:31-32 | for a non-null user, the descriptor is the one built from the user's claims; a null user is a null dereference |
| JwtMiddleware.QueryValue | Ellersoft.SignalR.Core/JwtMiddleware.cs:67 | the query value is null exactly when the case-folded parameter name is absent |
| JwtMiddleware.QueryNamesIgnoreCase | Ellersoft.SignalR.Core/JwtMiddleware.cs:67 | query parameter names that differ only in letter case read the same value, so `ACCESS_TOKEN` is found as `access_token` |
| JwtMiddleware.HasQueryToken | Ellersoft.SignalR.Core/JwtMiddleware.cs:71 | a non-empty token implies an access_token parameter is present |
| JwtMiddleware.Accepts | Ellersoft.SignalR.Core/JwtMiddleware.cs:71 | acceptance needs a non-empty token and a base path that converts (null, empty or '/'-led) and is no longer than the path |
| JwtMiddleware.GetTokenFromQueryString | Ellersoft.SignalR.Core/JwtMiddleware.cs:65-78 | the token becomes the access_token value when that value is non-empty and the path segment-starts-with the base; otherwise the context is unchanged; a bad base path throws only when a token is present |
| JwtMiddleware.TokenSetIffAccepted | Ellersoft.SignalR.Core/JwtMiddleware.cs:67-75 | on a fresh context, a token is set iff the request is accepted, and it is the query value |
| JwtMiddleware.ExtractorIdempotent | Ellersoft.SignalR.Core/JwtMiddleware.cs:65-78 | running the hook twice equals running it once |
| JwtMiddleware.ExtractorExamples | Ellersoft.SignalR.Core/JwtMiddleware.cs:67-75 | "abc" is taken on "/hubs/Chat" but not on "/api/data" or "/hubsomething/Chat"; an empty token is ignored; the base "hubs" throws only when a token is present |
| NameUserIdProvider.Default | Ellersoft.SignalR.Core/NameUserIdProvider.cs:40-43 | the default claim type is ClaimTypes.Name |
| NameUserIdProvider.FirstIndexOfType | Ellersoft.SignalR.Core/NameUserIdProvider.cs:32 | finds the first claim whose type equals the configured one, or none exists |
| NameUserIdProvider.GetUserId | Ellersoft.SignalR.Core/NameUserIdProvider.cs:30-34 | an id exists iff the user is non-null and has a claim of the type; it is the lower-cased value of the first such claim |
| AsciiText.ToLower | Ellersoft.SignalR.Core/NameUserIdProvider.cs:34 | `ToLower()` keeps the length, maps each character through the ASCII lower-case mapping, and leaves no ASCII upper-case letter |
| AsciiText.ToLowerIdempotent | Ellersoft.SignalR.Core/NameUserIdProvider.cs:34 | lower-casing an already lower-cased id changes nothing |
| NameUserIdProvider.GetUserIdOfConnection | Ellersoft.SignalR.Core/NameUserIdProvider.cs:22-23 | the connection overload gives the id of the connection's user |
| NameUserIdProvider.FirstMatchWins | Ellersoft.SignalR.Core/NameUserIdProvider.cs:32 | claims after the first match never change the id; without a match in front, the id comes from the rest |
| NameUserIdProvider.NoIdWithoutClaim | Ellersoft.SignalR.Core/NameUserIdProvider.cs:31-33 | a null user, or one with no claim of the type, gives null and never a failure |
| NameUserIdProvider.IdIsLowerCase | Ellersoft.SignalR.Core/NameUserIdProvider.cs:34 | the id contains no ASCII upper-case letter |
| NameUserIdProvider.Examples | Ellersoft.SignalR.Core/NameUserIdProvider.cs:30-34 | role/admin followed by name/Alice gives "alice"; a claim of type "Name" is not a "name" claim; the first of two name claims wins; no claims give null |
| Extensions.DefaultHookBasePath | Ellersoft.SignalR.Core/Extensions.cs:69 | the hook's default base is "/hubs" |
| Extensions.DefaultOptions | Ellersoft.SignalR.Core/Extensions.cs:37 | fresh bearer options require HTTPS metadata, install no message hook and hold default validation parameters |
| Extensions.ConfigureJwt | Ellersoft.SignalR.Core/Extensions.cs:49-74 | succeeds iff the middleware can be built; RequireHttpsMetadata is false; the hook base is the given path or "/hubs"; the validation parameters are those derived from a fresh default object |
| Extensions.AddEllersoftJwt | Ellersoft.SignalR.Core/Extensions.cs:32-41 | the additional configuration runs on the configured options, and null is a no-op |
| Extensions.RaiseMessageReceived | Ellersoft.SignalR.Core/Extensions.cs:66-70 | the installed handler is the query-string hook on its base path |
| Extensions.AdditionalConfigurationOverrides | Ellersoft.SignalR.Core/Extensions.cs:37-41 | an additional configuration that turns RequireHttpsMetadata back on wins |
| Extensions.DefaultBasesAgree | Ellersoft.SignalR.Core/Extensions.cs:69 | the hook's default base converts to "/" + BASE_PATH |
| Extensions.DefaultRoutesAcceptQueryTokens | Ellersoft.SignalR.Core/Extensions.cs:66-70 | with all defaults, a connection to the route of any `BaseHub` hub whose class name is an identifier that carries a non-empty access_token gets that token, on both platforms |
| Extensions.DefaultTypedRoutesAcceptQueryTokens | Ellersoft.SignalR.Core/BaseHub.cs:31-32 | the same holds for every hub derived from `BaseHub<T>`, whose default route is the one a `BaseHub` hub of the same name gets |
| Extensions.OtherPathsIgnored | Ellersoft.SignalR.Core/Extensions.cs:66-70 | with the default hook, requests outside "/hubs" keep their token slot |

## Left out

- Hub discovery and registration (`HubAttribute.RegisterEndpoints`, `GetAllHubs`, `InvokeMapHubMethod`, `GetMapHubMethod` and the private `GetRoute(Type)`, HubAttribute.cs:15-17 and 25-49): they rely on .NET reflection over the library's own assembly and on which `MapHub` overload reflection lists first. None of this can be stated from the code alone.
- Token signing and serialisation (`GetSigningCredentials` beyond its fields, both `GenerateToken` overloads): HMAC-SHA256 and `JwtSecurityTokenHandler` are foreign code, so the issue-then-validate round trip is not modelled.
- `DateTime.UtcNow`: the current time is a parameter of `JwtMiddleware.GetDescriptor`.
- `AddEllersoftSignalR` and `MapEllersoftSignalR`: these are dependency-injection and endpoint wiring. The provider they register is `NameUserIdProvider.Default`.
- `IConfiguration`: settings are an exact-name map, and the case-insensitive, hierarchical key lookup is not modelled. The `Configuration` property of the middleware is not kept.
- HubAttribute.GetRoute: takes a non-null base path. A null one, possible only when the public method is called directly, makes `Path.Combine` throw `ArgumentNullException`.
- `Path.Combine` on Windows: UNC and device paths, and the invalid-character checks of older frameworks, are not modelled. Drive prefixes such as `C:` are treated as roots.
- AsciiText.ToLower: `ToLower()` (NameUserIdProvider.cs:34) uses the current culture. The model folds ASCII letters only, so Turkish dotted/dotless I and other non-ASCII case rules are not captured.
- AsciiText.EndsWith: `EndsWith("Hub")` (HubAttribute.cs:20) compares under the current culture. The model compares scalar values ordinally, so culture-specific equivalences, such as ignorable characters, are not captured.
- PathStrings.StartsWithSegments: folds case over ASCII letters only. .NET's OrdinalIgnoreCase also folds non-ASCII letters, so "/HÜBS/x" matches the base "/hübs" in .NET but not in the model.
- JwtMiddleware.GetValidationParameters: returns a new record. The code mutates its argument in place and returns that same object, and a null argument throws `NullReferenceException`. The model takes a non-null value. Its only caller, Extensions.cs:73, passes a fresh object, so the difference is not observable there.
- `PathString` conversion: the percent-decoding done by `PathString.FromUriComponent` is not modelled, so base paths are taken literally.
- JwtMiddleware.QueryValue / JwtMiddleware.QueryNamesIgnoreCase: query names are folded over ASCII letters only (`JwtMiddleware.Query` is keyed by ASCII-lower-cased names). `QueryCollection`'s OrdinalIgnoreCase also folds non-ASCII letters.
- Query strings: a parameter with several values (`StringValues` joined with commas) is not modelled. Each name maps to one value.
- `Task` return of the hook: it always returns a completed task, so the hook is a pure function from context to context.
- `AddJwtBearer` builds options lazily. The model builds them at once, so a missing key surfaces where the options are built.
- `TokenValidationParameters` and `JwtBearerOptions`: only the fields the code assigns, plus a few untouched ones, are tracked. The defaults of the untouched fields follow the Microsoft.IdentityModel and ASP.NET Core libraries.
- Null objects the records cannot represent: a null hub `Type` (the `Name` dereference at HubAttribute.cs:20 throws `NullReferenceException`), a null connection (`connection.User` at NameUserIdProvider.cs:23) and a null configuration (the indexer at JwtMiddleware.cs:23) all throw `NullReferenceException`; the model's hub types, connections and configurations are always present.
- `ClaimsPrincipal`: the claims of all identities are one ordered sequence. `GetUserId(HubConnectionContext)` is `virtual`, and overrides are not modelled.
