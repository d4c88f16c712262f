/** The static `GetRoute<THub>(basePath = null)` helpers of the two `BaseHub`
    classes: a null base path falls back to `HubAttribute.BASE_PATH`. */
module BaseHub {
  import opened Wrappers
  import opened DotNetPath
  import opened HubAttribute

  /** `BaseHub.GetRoute<THub>(basePath)`; THub derives from `BaseHub`. */
  function GetRoute(p: Platform, hub: HubType, basePath: Option<string>): (r: string)
    requires hub.base == Untyped
    ensures basePath.None? ==> r == HubAttribute.GetRoute(p, BasePath, hub)
    ensures basePath.Some? ==> r == HubAttribute.GetRoute(p, basePath.value, hub)
  {
    HubAttribute.GetRoute(p, basePath.GetOr(BasePath), hub)
  }

  /** `BaseHub<T>.GetRoute<THub>(basePath)`; THub derives from `BaseHub<T>`. */
  function GetRouteTyped(p: Platform, client: string, hub: HubType, basePath: Option<string>): (r: string)
    requires hub.base == Typed(client)
    ensures basePath.None? ==> r == HubAttribute.GetRoute(p, BasePath, hub)
    ensures basePath.Some? ==> r == HubAttribute.GetRoute(p, basePath.value, hub)
  {
    HubAttribute.GetRoute(p, basePath.GetOr(BasePath), hub)
  }

  /** A hub derived from `BaseHub<T>` is routed exactly like one derived from
      `BaseHub` with the same simple name. */
  lemma TypedAgreesWithUntyped(p: Platform, client: string, typed: HubType, untyped: HubType, basePath: Option<string>)
    requires typed.base == Typed(client) && untyped.base == Untyped
    requires typed.name == untyped.name
    ensures GetRouteTyped(p, client, typed, basePath) == GetRoute(p, untyped, basePath)
  {
  }

  /** With no base path, a hub is served at "/hubs/<name>" (or "/hubs" for a
      class named just "Hub"), on every platform. */
  lemma DefaultRoute(p: Platform, hub: HubType)
    requires hub.base == Untyped
    requires IsTypeName(hub.name)
    ensures GetRoute(p, hub, None) == GetRoute(p, hub, Some("hubs"))
    ensures ConvertClassNameForRoute(hub.name) != ""
        ==> GetRoute(p, hub, None) == "/hubs/" + ConvertClassNameForRoute(hub.name)
    ensures ConvertClassNameForRoute(hub.name) == "" ==> GetRoute(p, hub, None) == "/hubs"
  {
    assert PortableSegment(BasePath);
    RouteOfPlainBase(p, BasePath, hub);
    assert "/" + BasePath + "/" == "/hubs/";
  }
}
