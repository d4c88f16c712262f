/** `Extensions.ConfigureJwt` and `AddEllersoftJwt` as builders of the JWT
    bearer options, and the theorem that ties the hub routes to the
    query-string hook: with the defaults on both sides, the route of every
    hub whose class name is an identifier accepts a query-string token. */
module Extensions {
  import opened Wrappers
  import opened Exceptions
  import opened DotNetPath
  import opened HubAttribute
  import BaseHub
  import JwtMiddleware
  import PathStrings

  /** The `OnMessageReceived` handler installed by `ConfigureJwt`: the query
      hook bound to a base path. */
  datatype MessageReceivedHook = QueryStringHook(basePath: string)

  /** `JwtBearerEvents`; `None` is the default handler, which does nothing. */
  datatype JwtBearerEvents = JwtBearerEvents(onMessageReceived: Option<MessageReceivedHook>)

  /** The fields of `JwtBearerOptions` the model tracks. */
  datatype JwtBearerOptions = JwtBearerOptions(
    requireHttpsMetadata: bool,
    saveToken: bool,
    events: JwtBearerEvents,
    tokenValidationParameters: JwtMiddleware.TokenValidationParameters)

  /** A fresh `JwtBearerOptions`. */
  function DefaultOptions(): (r: JwtBearerOptions)
    ensures r.requireHttpsMetadata && r.events.onMessageReceived.None?
    ensures r.tokenValidationParameters == JwtMiddleware.DefaultValidationParameters()
  {
    JwtBearerOptions(true, true, JwtBearerEvents(None), JwtMiddleware.DefaultValidationParameters())
  }

  /** The base path the hook uses when none is given: "/" + `BASE_PATH`. */
  function DefaultHookBasePath(): (r: string)
    ensures r == "/hubs"
  {
    "/" + BasePath
  }

  /** `ConfigureJwt(options, configuration, baseHubPath)`. Building the
      middleware throws when the configured key is missing or empty. */
  function ConfigureJwt(options: JwtBearerOptions, config: JwtMiddleware.Configuration, baseHubPath: Option<string>)
    : (r: Result<JwtBearerOptions, Exception>)
    ensures r.Success? <==> JwtMiddleware.New(config).Success?
    ensures r.Success? ==> !r.value.requireHttpsMetadata
    ensures r.Success? ==> r.value.saveToken == options.saveToken
    ensures r.Success? && baseHubPath.None? ==> r.value.events == JwtBearerEvents(Some(QueryStringHook("/hubs")))
    ensures r.Success? && baseHubPath.Some? ==> r.value.events == JwtBearerEvents(Some(QueryStringHook(baseHubPath.value)))
    ensures r.Success? ==> r.value.tokenValidationParameters
                           == JwtMiddleware.GetValidationParameters(JwtMiddleware.New(config).value,
                                                                     JwtMiddleware.DefaultValidationParameters())
  {
    var configured := options.(
      requireHttpsMetadata := false,
      events := JwtBearerEvents(Some(QueryStringHook(baseHubPath.GetOr(DefaultHookBasePath())))));
    var middleware :- JwtMiddleware.New(config);
    Success(configured.(tokenValidationParameters :=
      JwtMiddleware.GetValidationParameters(middleware, JwtMiddleware.DefaultValidationParameters())))
  }

  /** The options `AddEllersoftJwt` registers: a fresh object, configured,
      then handed to `additionalConfiguration` when there is one. */
  function AddEllersoftJwt(config: JwtMiddleware.Configuration, baseHubPath: Option<string>,
                           additionalConfiguration: Option<JwtBearerOptions -> JwtBearerOptions>)
    : (r: Result<JwtBearerOptions, Exception>)
    ensures r.Failure? <==> ConfigureJwt(DefaultOptions(), config, baseHubPath).Failure?
    ensures additionalConfiguration.None? ==> r == ConfigureJwt(DefaultOptions(), config, baseHubPath)
    ensures additionalConfiguration.Some? && r.Success?
        ==> r.value == additionalConfiguration.value(ConfigureJwt(DefaultOptions(), config, baseHubPath).value)
  {
    var configured :- ConfigureJwt(DefaultOptions(), config, baseHubPath);
    match additionalConfiguration
    case None => Success(configured)
    case Some(f) => Success(f(configured))
  }

  /** The authentication handler raising `OnMessageReceived`. */
  function RaiseMessageReceived(options: JwtBearerOptions, context: JwtMiddleware.MessageReceivedContext)
    : (r: Result<JwtMiddleware.MessageReceivedContext, Exception>)
    ensures options.events.onMessageReceived.None? ==> r == Success(context)
    ensures options.events.onMessageReceived.Some?
        ==> r == JwtMiddleware.GetTokenFromQueryString(context, Some(options.events.onMessageReceived.value.basePath))
  {
    match options.events.onMessageReceived
    case None => Success(context)
    case Some(QueryStringHook(basePath)) => JwtMiddleware.GetTokenFromQueryString(context, Some(basePath))
  }

  /** The additional configuration runs last, so it can undo a default:
      re-enabling HTTPS metadata sticks. */
  lemma AdditionalConfigurationOverrides(config: JwtMiddleware.Configuration, baseHubPath: Option<string>)
    requires JwtMiddleware.New(config).Success?
    ensures var f := (o: JwtBearerOptions) => o.(requireHttpsMetadata := true);
            var r := AddEllersoftJwt(config, baseHubPath, Some(f));
            r.Success? && r.value.requireHttpsMetadata
    ensures var r := AddEllersoftJwt(config, baseHubPath, None);
            r.Success? && !r.value.requireHttpsMetadata
  {
  }

  /** The defaults of the two halves agree: the hook's default base is the
      route convention's default base with a leading '/'. */
  lemma DefaultBasesAgree()
    ensures PathStrings.FromString(Some(DefaultHookBasePath())) == Success("/" + BasePath)
  {
  }

  /** Every `BaseHub` hub with an identifier name accepts a query-string
      token under the default hook: a connection to the hub's default route
      that carries a non-empty `access_token` gets that token. */
  lemma DefaultRoutesAcceptQueryTokens(
    p: Platform, hub: HubType, config: JwtMiddleware.Configuration, context: JwtMiddleware.MessageReceivedContext)
    requires hub.base == Untyped && IsTypeName(hub.name)
    requires JwtMiddleware.New(config).Success?
    requires context.request.path == BaseHub.GetRoute(p, hub, None)
    requires JwtMiddleware.HasQueryToken(context)
    ensures ConfigureJwt(DefaultOptions(), config, None).Success?
    ensures RaiseMessageReceived(ConfigureJwt(DefaultOptions(), config, None).value, context)
         == Success(context.(token := JwtMiddleware.QueryValue(context.request, JwtMiddleware.AccessTokenParameter)))
  {
    assert PortableSegment(BasePath);
    RouteUnderBase(p, BasePath, hub);
    assert JwtMiddleware.Accepts(context, Some("/hubs"));
  }

  /** The same for a hub derived from `BaseHub<T>`: its default route is the
      one a `BaseHub` hub of the same name gets, so the hook accepts it too. */
  lemma DefaultTypedRoutesAcceptQueryTokens(
    p: Platform, client: string, hub: HubType, config: JwtMiddleware.Configuration,
    context: JwtMiddleware.MessageReceivedContext)
    requires hub.base == Typed(client) && IsTypeName(hub.name)
    requires JwtMiddleware.New(config).Success?
    requires context.request.path == BaseHub.GetRouteTyped(p, client, hub, None)
    requires JwtMiddleware.HasQueryToken(context)
    ensures ConfigureJwt(DefaultOptions(), config, None).Success?
    ensures RaiseMessageReceived(ConfigureJwt(DefaultOptions(), config, None).value, context)
         == Success(context.(token := JwtMiddleware.QueryValue(context.request, JwtMiddleware.AccessTokenParameter)))
  {
    var untyped := hub.(base := Untyped);
    BaseHub.TypedAgreesWithUntyped(p, client, hub, untyped, None);
    DefaultRoutesAcceptQueryTokens(p, untyped, config, context);
  }

  /** A request outside the hub base keeps its token slot untouched, whatever
      its query string carries. */
  lemma OtherPathsIgnored(config: JwtMiddleware.Configuration, context: JwtMiddleware.MessageReceivedContext)
    requires JwtMiddleware.New(config).Success?
    requires !PathStrings.StartsWithSegments(context.request.path, "/hubs")
    ensures RaiseMessageReceived(ConfigureJwt(DefaultOptions(), config, None).value, context) == Success(context)
  {
  }
}
