/** `JwtMiddleware`: the signing settings read from configuration, the token
    validation parameters derived from them, the fields of the token
    descriptor, and the hook that lets a hub connection carry its bearer token
    in the query string. Signing and serialising the token are not modelled. */
module JwtMiddleware {
  import opened Wrappers
  import opened Exceptions
  import opened AsciiText
  import opened Claims
  import PathStrings

  newtype byte = x: int | 0 <= x < 256

  /** An `IConfiguration`, seen as the settings it holds. */
  type Configuration = map<string, string>

  const AudienceSetting: string := "Jwt:Audience"
  const IssuerSetting: string := "Jwt:Issuer"
  const KeySetting: string := "Jwt:Key"

  /** `configuration[name]`: null when the setting is absent. */
  function Setting(config: Configuration, name: string): (r: Option<string>)
    ensures r.Some? <==> name in config
    ensures r.Some? ==> r.value == config[name]
  {
    if name in config then Some(config[name]) else None
  }

  /** `Encoding.ASCII.GetBytes`: one byte per character, and every character
      outside ASCII becomes '?'. */
  function AsciiGetBytes(s: string): (r: seq<byte>)
    ensures |r| == |s|
    ensures forall i :: 0 <= i < |s| ==> r[i] as int == (if s[i] as int < 128 then s[i] as int else '?' as int)
  {
    seq(|s|, i requires 0 <= i < |s| => if s[i] as int < 128 then s[i] as int as byte else '?' as int as byte)
  }

  predicate IsAscii(s: string) {
    forall i :: 0 <= i < |s| ==> s[i] as int < 128
  }

  /** Distinct ASCII key texts give distinct key bytes. */
  lemma AsciiKeyBytes(a: string, b: string)
    requires IsAscii(a) && IsAscii(b) && AsciiGetBytes(a) == AsciiGetBytes(b)
    ensures a == b
  {
    forall i | 0 <= i < |a|
      ensures a[i] == b[i]
    {
      assert AsciiGetBytes(a)[i] == AsciiGetBytes(b)[i];
    }
  }

  /** Outside ASCII the encoding is not injective: "é" and "?" make the same key. */
  lemma AsciiKeyCollision()
    ensures AsciiGetBytes("\U{e9}") == AsciiGetBytes("?")
    ensures "\U{e9}" != "?"
  {
  }

  datatype SymmetricSecurityKey = SymmetricSecurityKey(key: seq<byte>)

  /** `new SymmetricSecurityKey(bytes)`, which refuses an empty key. */
  function NewSymmetricSecurityKey(bytes: seq<byte>): (r: Result<SymmetricSecurityKey, Exception>)
    ensures r.Success? <==> |bytes| > 0
    ensures r.Success? ==> r.value.key == bytes
    ensures r.Failure? ==> r.error == ArgumentException
  {
    if |bytes| == 0 then Failure(ArgumentException) else Success(SymmetricSecurityKey(bytes))
  }

  /** A constructed middleware: audience and issuer may be null; the key is not. */
  datatype Middleware = Middleware(audience: Option<string>, issuer: Option<string>, key: SymmetricSecurityKey)

  /** `new JwtMiddleware(configuration)`: a missing key makes
      `Encoding.GetBytes(null)` throw, an empty one makes the key constructor
      throw; audience and issuer are copied as they are, null included. */
  function New(config: Configuration): (r: Result<Middleware, Exception>)
    ensures r.Success? <==> KeySetting in config && config[KeySetting] != ""
    ensures KeySetting !in config ==> r == Failure(ArgumentNullException)
    ensures KeySetting in config && config[KeySetting] == "" ==> r == Failure(ArgumentException)
    ensures r.Success? ==> r.value.audience == Setting(config, AudienceSetting)
    ensures r.Success? ==> r.value.issuer == Setting(config, IssuerSetting)
    ensures r.Success? ==> r.value.key.key == AsciiGetBytes(config[KeySetting])
  {
    var audience := Setting(config, AudienceSetting);
    var issuer := Setting(config, IssuerSetting);
    match Setting(config, KeySetting)
    case None => Failure(ArgumentNullException)
    case Some(text) =>
      var key :- NewSymmetricSecurityKey(AsciiGetBytes(text));
      Success(Middleware(audience, issuer, key))
  }

  /** The fields of `TokenValidationParameters` the model tracks: the seven the
      middleware assigns and four it leaves alone. */
  datatype TokenValidationParameters = TokenValidationParameters(
    issuerSigningKey: Option<SymmetricSecurityKey>,
    validAudience: Option<string>,
    validIssuer: Option<string>,
    validateAudience: bool,
    validateIssuer: bool,
    validateIssuerSigningKey: bool,
    validateLifetime: bool,
    clockSkewSeconds: nat,
    requireExpirationTime: bool,
    requireSignedTokens: bool,
    saveSigninToken: bool)

  /** `new TokenValidationParameters()`, with the library's defaults. */
  function DefaultValidationParameters(): (r: TokenValidationParameters)
    ensures r.issuerSigningKey.None? && r.validAudience.None? && r.validIssuer.None?
    ensures r.validateAudience && r.validateIssuer && r.validateLifetime && !r.validateIssuerSigningKey
  {
    TokenValidationParameters(
      issuerSigningKey := None,
      validAudience := None,
      validIssuer := None,
      validateAudience := true,
      validateIssuer := true,
      validateIssuerSigningKey := false,
      validateLifetime := true,
      clockSkewSeconds := 300,
      requireExpirationTime := true,
      requireSignedTokens := true,
      saveSigninToken := false)
  }

  /** The fields `GetValidationParameters` does not assign agree. */
  predicate SameUnassignedFields(a: TokenValidationParameters, b: TokenValidationParameters) {
    && a.clockSkewSeconds == b.clockSkewSeconds
    && a.requireExpirationTime == b.requireExpirationTime
    && a.requireSignedTokens == b.requireSignedTokens
    && a.saveSigninToken == b.saveSigninToken
  }

  /** `GetValidationParameters(initialParameters)`: the object comes back
      with key, audience and issuer installed; audience and issuer are checked
      exactly when configured (an empty string counts as configured); the key
      and the lifetime are always checked; nothing else changes. */
  function GetValidationParameters(m: Middleware, initial: TokenValidationParameters): (r: TokenValidationParameters)
    ensures r.issuerSigningKey == Some(m.key)
    ensures r.validAudience == m.audience && r.validIssuer == m.issuer
    ensures r.validateAudience <==> m.audience.Some?
    ensures r.validateIssuer <==> m.issuer.Some?
    ensures r.validateIssuerSigningKey && r.validateLifetime
    ensures SameUnassignedFields(r, initial)
  {
    initial.(
      issuerSigningKey := Some(m.key),
      validAudience := m.audience,
      validIssuer := m.issuer,
      validateAudience := m.audience.Some?,
      validateIssuer := m.issuer.Some?,
      validateIssuerSigningKey := true,
      validateLifetime := true)
  }

  /** Applying the derivation again changes nothing. */
  lemma ValidationParametersIdempotent(m: Middleware, initial: TokenValidationParameters)
    ensures GetValidationParameters(m, GetValidationParameters(m, initial)) == GetValidationParameters(m, initial)
  {
  }

  /** The result depends on the initial object only through the fields it
      does not assign. */
  lemma ValidationParametersDependOnlyOnUnassigned(m: Middleware, a: TokenValidationParameters, b: TokenValidationParameters)
    requires SameUnassignedFields(a, b)
    ensures GetValidationParameters(m, a) == GetValidationParameters(m, b)
  {
  }

  /** DateTime as ticks of 100 ns, from `DateTime.MinValue` to `MaxValue`. */
  const MaxTicks: int := 3155378975999999999
  const TicksPerDay: int := 864000000000
  type DateTime = t: int | 0 <= t <= MaxTicks

  /** Days a token stays valid. */
  const TokenLifetimeDays: nat := 7

  /** `t.AddDays(days)` for whole days, which throws past `DateTime.MaxValue`. */
  function AddDays(t: DateTime, days: nat): (r: Result<DateTime, Exception>)
    ensures r.Success? <==> t + days * TicksPerDay <= MaxTicks
    ensures r.Success? ==> r.value - t == days * TicksPerDay
    ensures r.Failure? ==> r.error == ArgumentOutOfRangeException
  {
    if t + days * TicksPerDay <= MaxTicks then Success(t + days * TicksPerDay) else Failure(ArgumentOutOfRangeException)
  }

  /** `SecurityAlgorithms.HmacSha256Signature`. */
  const HmacSha256Signature: string := "http://www.w3.org/2001/04/xmldsig-more#hmac-sha256"

  datatype SigningCredentials = SigningCredentials(key: SymmetricSecurityKey, algorithm: string)

  datatype SecurityTokenDescriptor = SecurityTokenDescriptor(
    audience: Option<string>,
    issuer: Option<string>,
    subject: seq<Claim>,
    expires: DateTime,
    signingCredentials: SigningCredentials)

  /** `GetDescriptor(claims)` at time `now` (the source reads `DateTime.UtcNow`). */
  function GetDescriptor(m: Middleware, claims: seq<Claim>, now: DateTime): (r: Result<SecurityTokenDescriptor, Exception>)
    ensures r.Success? <==> now + TokenLifetimeDays * TicksPerDay <= MaxTicks
    ensures r.Failure? ==> r.error == ArgumentOutOfRangeException
    ensures r.Success? ==> r.value.subject == claims
    ensures r.Success? ==> r.value.audience == m.audience && r.value.issuer == m.issuer
    ensures r.Success? ==> r.value.expires - now == 7 * 24 * 60 * 60 * 10_000_000
    ensures r.Success? ==> r.value.signingCredentials == SigningCredentials(m.key, HmacSha256Signature)
  {
    var expires :- AddDays(now, TokenLifetimeDays);
    Success(SecurityTokenDescriptor(m.audience, m.issuer, claims, expires, SigningCredentials(m.key, HmacSha256Signature)))
  }

  /** `GetDescriptor(user)`: the user's claims, or a null dereference. */
  function GetDescriptorForUser(m: Middleware, user: Option<Principal>, now: DateTime): (r: Result<SecurityTokenDescriptor, Exception>)
    ensures user.None? ==> r == Failure(NullReferenceException)
    ensures user.Some? ==> r == GetDescriptor(m, user.value.claims, now)
    ensures user.Some? && r.Success? ==> r.value.subject == user.value.claims
  {
    match user
    case None => Failure(NullReferenceException)
    case Some(u) => GetDescriptor(m, u.claims, now)
  }

  /** A request's query collection. Parameter names are matched ignoring
      case, so the collection is keyed by lower-cased names: "ACCESS_TOKEN"
      in a query string is stored as "access_token". */
  type Query = q: map<string, string> | forall k :: k in q ==> ToLower(k) == k
    witness map[]

  /** The request as the hook sees it. */
  datatype HttpRequest = HttpRequest(path: string, query: Query)

  /** `MessageReceivedContext`: the request and the token slot to fill. */
  datatype MessageReceivedContext = MessageReceivedContext(request: HttpRequest, token: Option<string>)

  const AccessTokenParameter: string := "access_token"

  /** `Request.Query[name]` read as a string: null when absent. */
  function QueryValue(request: HttpRequest, name: string): (r: Option<string>)
    ensures r.Some? <==> ToLower(name) in request.query
    ensures r.Some? ==> r.value == request.query[ToLower(name)]
  {
    var key := ToLower(name);
    if key in request.query then Some(request.query[key]) else None
  }

  /** Query names are looked up ignoring case: names that differ only in
      the case of their letters read the same value. */
  lemma {:induction false} QueryNamesIgnoreCase(request: HttpRequest, a: string, b: string)
    requires EqualsIgnoreCase(a, b)
    ensures QueryValue(request, a) == QueryValue(request, b)
  {
    forall i | 0 <= i < |a|
      ensures ToLower(a)[i] == ToLower(b)[i]
    {
      assert CharEqualsIgnoreCase(a[i], b[i]);
    }
    assert ToLower(a) == ToLower(b);
  }

  /** `!string.IsNullOrEmpty(accessToken)`. */
  predicate HasQueryToken(context: MessageReceivedContext)
    ensures HasQueryToken(context) ==> AccessTokenParameter in context.request.query
  {
    assert ToLower(AccessTokenParameter) == AccessTokenParameter;
    var t := QueryValue(context.request, AccessTokenParameter);
    t.Some? && t.value != ""
  }

  /** The hook's condition: a non-empty query token on a request whose path
      lies in the segments of the (convertible) base path. */
  predicate Accepts(context: MessageReceivedContext, basePath: Option<string>)
    ensures Accepts(context, basePath) ==> HasQueryToken(context)
    ensures Accepts(context, basePath) ==> basePath.None? || basePath.value == "" || basePath.value[0] == '/'
    ensures Accepts(context, basePath) && basePath.Some? ==> |basePath.value| <= |context.request.path|
  {
    && HasQueryToken(context)
    && PathStrings.FromString(basePath).Success?
    && PathStrings.StartsWithSegments(context.request.path, PathStrings.FromString(basePath).value)
  }

  /** `GetTokenFromQueryString(context, basePath)`. The base path is converted
      to a `PathString` only after the token test succeeds, so a base path
      without a leading '/' throws only on requests that carry a token. */
  function GetTokenFromQueryString(context: MessageReceivedContext, basePath: Option<string>): (r: Result<MessageReceivedContext, Exception>)
    ensures r.Failure? <==> HasQueryToken(context) && PathStrings.FromString(basePath).Failure?
    ensures r.Failure? ==> r.error == ArgumentException
    ensures Accepts(context, basePath)
        ==> r == Success(context.(token := QueryValue(context.request, AccessTokenParameter)))
    ensures r.Success? && !Accepts(context, basePath) ==> r == Success(context)
  {
    var accessToken := QueryValue(context.request, AccessTokenParameter);
    if accessToken.None? || accessToken.value == "" then Success(context)
    else
      var hubPath :- PathStrings.FromString(basePath);
      if PathStrings.StartsWithSegments(context.request.path, hubPath) then Success(context.(token := accessToken))
      else Success(context)
  }

  /** On a fresh context (no token yet) the hook fills the token exactly when
      it accepts the request, and then with the query value. */
  lemma TokenSetIffAccepted(context: MessageReceivedContext, basePath: Option<string>)
    requires context.token.None?
    requires GetTokenFromQueryString(context, basePath).Success?
    ensures GetTokenFromQueryString(context, basePath).value.token.Some? <==> Accepts(context, basePath)
    ensures GetTokenFromQueryString(context, basePath).value.token.Some?
        ==> GetTokenFromQueryString(context, basePath).value.token == QueryValue(context.request, AccessTokenParameter)
  {
  }

  /** Running the hook twice is running it once. */
  lemma ExtractorIdempotent(context: MessageReceivedContext, basePath: Option<string>)
    requires GetTokenFromQueryString(context, basePath).Success?
    ensures GetTokenFromQueryString(GetTokenFromQueryString(context, basePath).value, basePath)
         == GetTokenFromQueryString(context, basePath)
  {
  }

  function RequestWithToken(path: string, token: string): MessageReceivedContext {
    assert ToLower(AccessTokenParameter) == AccessTokenParameter;
    MessageReceivedContext(HttpRequest(path, map[AccessTokenParameter := token]), None)
  }

  /** The worked cases for the base "/hubs" and the token "abc". */
  lemma ExtractorExamples()
    ensures GetTokenFromQueryString(RequestWithToken("/hubs/Chat", "abc"), Some("/hubs"))
         == Success(RequestWithToken("/hubs/Chat", "abc").(token := Some("abc")))
    ensures GetTokenFromQueryString(RequestWithToken("/api/data", "abc"), Some("/hubs"))
         == Success(RequestWithToken("/api/data", "abc"))
    ensures GetTokenFromQueryString(RequestWithToken("/hubsomething/Chat", "abc"), Some("/hubs"))
         == Success(RequestWithToken("/hubsomething/Chat", "abc"))
    ensures GetTokenFromQueryString(RequestWithToken("/hubs/Chat", ""), Some("/hubs"))
         == Success(RequestWithToken("/hubs/Chat", ""))
    ensures GetTokenFromQueryString(RequestWithToken("/hubs/Chat", "abc"), Some("hubs"))
         == Failure(ArgumentException)
    ensures GetTokenFromQueryString(RequestWithToken("/hubs/Chat", ""), Some("hubs"))
         == Success(RequestWithToken("/hubs/Chat", ""))
  {
    assert ToLower(AccessTokenParameter) == AccessTokenParameter;
    PathStrings.Examples();
  }
}
