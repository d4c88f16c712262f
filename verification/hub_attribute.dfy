/** The hub route convention of `HubAttribute`: a hub class is served at
    "/<base>/<name>", where <name> is the simple class name without a trailing
    "Hub". */
module HubAttribute {
  import opened AsciiText
  import opened DotNetPath
  import PathStrings

  /** `HubAttribute.BASE_PATH`. */
  const BasePath: string := "hubs"

  const HubSuffix: string := "Hub"

  /** Which of the two `BaseHub` classes a hub derives from. */
  datatype HubBase = Untyped | Typed(client: string)

  /** A hub class: its namespace, its simple name (`Type.Name`) and its base. */
  datatype HubType = HubType(namespace: string, name: string, base: HubBase)

  predicate IsIdentifierChar(c: char) {
    IsLetter(c) || IsDigit(c) || c == '_' || c == '`'
  }

  /** A simple .NET type name over ASCII (the backquote appears in generic
      type names such as "Hub`1"). */
  predicate IsTypeName(name: string) {
    forall i :: 0 <= i < |name| ==> IsIdentifierChar(name[i])
  }

  /** `ConvertClassNameForRoute`: drop one trailing case-sensitive "Hub". */
  function ConvertClassNameForRoute(name: string): (r: string)
    ensures r <= name
    ensures |r| == |name| || |r| + |HubSuffix| == |name|
  {
    if EndsWith(name, HubSuffix) then name[..|name| - |HubSuffix|] else name
  }

  /** A name ending in "Hub" is the converted name plus exactly that suffix;
      any other name is kept whole. */
  lemma ConvertStripsOneSuffix(name: string)
    ensures EndsWith(name, HubSuffix) ==> ConvertClassNameForRoute(name) + HubSuffix == name
    ensures !EndsWith(name, HubSuffix) ==> ConvertClassNameForRoute(name) == name
    ensures |name| - |ConvertClassNameForRoute(name)| in {0, |HubSuffix|}
  {
  }

  /** `GetRoute(basePath, hub)`: `Path.Combine("/", basePath, name)` with
      every backslash turned into '/'. */
  function GetRoute(p: Platform, basePath: string, hub: HubType): (r: string)
    ensures '\\' !in r
  {
    Replace(Combine(p, ["/", basePath, ConvertClassNameForRoute(hub.name)]), '\\', '/')
  }

  /** Adding the suffix and converting gives the name back. */
  lemma ConvertRoundTrip(name: string)
    ensures ConvertClassNameForRoute(name + HubSuffix) == name
  {
  }

  /** The stripping cases: once only, and case-sensitive. */
  lemma ConvertExamples()
    ensures ConvertClassNameForRoute("ChatHub") == "Chat"
    ensures ConvertClassNameForRoute("Chathub") == "Chathub"
    ensures ConvertClassNameForRoute("HubHub") == "Hub"
    ensures ConvertClassNameForRoute("Hub") == ""
    ensures ConvertClassNameForRoute("Lobby") == "Lobby"
  {
  }

  /** A stripped type name is never rooted and never holds a backslash. */
  lemma StrippedNamePortable(name: string)
    requires IsTypeName(name)
    ensures PortableSegment(ConvertClassNameForRoute(name))
    ensures forall i :: 0 <= i < |ConvertClassNameForRoute(name)| ==> ConvertClassNameForRoute(name)[i] != '/'
  {
  }

  /** The route before normalisation, as three joins. */
  lemma RouteUnfolds(p: Platform, basePath: string, hub: HubType)
    ensures GetRoute(p, basePath, hub)
         == Replace(Join(p, Join(p, "/", basePath), ConvertClassNameForRoute(hub.name)), '\\', '/')
  {
    Combine3(p, "/", basePath, ConvertClassNameForRoute(hub.name));
  }

  /** The route is the same string on Windows and on Unix. */
  lemma RoutePlatformIndependent(basePath: string, hub: HubType)
    requires PortableSegment(basePath)
    requires IsTypeName(hub.name)
    ensures GetRoute(Windows, basePath, hub) == GetRoute(Unix, basePath, hub)
  {
    var segments := ["/", basePath, ConvertClassNameForRoute(hub.name)];
    StrippedNamePortable(hub.name);
    CombinePortable(segments);
    RouteUnfolds(Unix, basePath, hub);
    Combine3(Unix, "/", basePath, ConvertClassNameForRoute(hub.name));
    ReplaceAbsent(Combine(Unix, segments), '\\', '/');
  }

  /** A plain base segment gives "/<base>/<name>", or "/<base>" when the
      stripped name is empty. */
  lemma RouteOfPlainBase(p: Platform, basePath: string, hub: HubType)
    requires basePath != "" && '/' !in basePath && PortableSegment(basePath)
    requires IsTypeName(hub.name)
    ensures ConvertClassNameForRoute(hub.name) != ""
        ==> GetRoute(p, basePath, hub) == "/" + basePath + "/" + ConvertClassNameForRoute(hub.name)
    ensures ConvertClassNameForRoute(hub.name) == "" ==> GetRoute(p, basePath, hub) == "/" + basePath
  {
    var s := ConvertClassNameForRoute(hub.name);
    StrippedNamePortable(hub.name);
    RouteUnfolds(p, basePath, hub);
    assert Join(p, "/", basePath) == "/" + basePath;
    ReplaceAbsent("/" + basePath, '\\', '/');
    if s != "" {
      assert ("/" + basePath)[|basePath|] == basePath[|basePath| - 1];
      assert Join(p, "/" + basePath, s) == "/" + basePath + [DirectorySeparatorChar(p)] + s;
      ReplaceConcat("/" + basePath + [DirectorySeparatorChar(p)], s, '\\', '/');
      ReplaceConcat("/" + basePath, [DirectorySeparatorChar(p)], '\\', '/');
      ReplaceAbsent(s, '\\', '/');
      assert Replace([DirectorySeparatorChar(p)], '\\', '/') == "/";
    }
  }

  /** An empty base collapses to "/<name>". */
  lemma RouteOfEmptyBase(p: Platform, hub: HubType)
    requires IsTypeName(hub.name)
    ensures GetRoute(p, "", hub) == "/" + ConvertClassNameForRoute(hub.name)
  {
    var s := ConvertClassNameForRoute(hub.name);
    StrippedNamePortable(hub.name);
    RouteUnfolds(p, "", hub);
    ReplaceAbsent("/" + s, '\\', '/');
  }

  /** A base that already starts with '/' is used as the root itself: the
      name follows it after one '/', which is not doubled when the base
      already ends in one. */
  lemma RouteOfRootedBase(p: Platform, basePath: string, hub: HubType)
    requires |basePath| > 0 && basePath[0] == '/'
    requires PortableSegment(basePath)
    requires IsTypeName(hub.name)
    ensures ConvertClassNameForRoute(hub.name) == "" ==> GetRoute(p, basePath, hub) == basePath
    ensures ConvertClassNameForRoute(hub.name) != "" && basePath[|basePath| - 1] != '/'
        ==> GetRoute(p, basePath, hub) == basePath + "/" + ConvertClassNameForRoute(hub.name)
    ensures ConvertClassNameForRoute(hub.name) != "" && basePath[|basePath| - 1] == '/'
        ==> GetRoute(p, basePath, hub) == basePath + ConvertClassNameForRoute(hub.name)
  {
    var s := ConvertClassNameForRoute(hub.name);
    StrippedNamePortable(hub.name);
    RouteUnfolds(p, basePath, hub);
    ReplaceAbsent(basePath, '\\', '/');
    ReplaceAbsent(s, '\\', '/');
    if s != "" {
      if basePath[|basePath| - 1] == '/' {
        assert Join(p, basePath, s) == basePath + s;
        ReplaceConcat(basePath, s, '\\', '/');
      } else {
        assert Join(p, basePath, s) == basePath + [DirectorySeparatorChar(p)] + s;
        ReplaceConcat(basePath + [DirectorySeparatorChar(p)], s, '\\', '/');
        ReplaceConcat(basePath, [DirectorySeparatorChar(p)], '\\', '/');
        assert Replace([DirectorySeparatorChar(p)], '\\', '/') == "/";
      }
    }
  }

  /** Every route is rooted at '/' (on Windows, unless the base names a drive). */
  lemma RouteStartsWithSlash(p: Platform, basePath: string, hub: HubType)
    requires p == Unix || !IsDriveRooted(basePath)
    requires IsTypeName(hub.name)
    ensures |GetRoute(p, basePath, hub)| > 0 && GetRoute(p, basePath, hub)[0] == '/'
  {
    var s := ConvertClassNameForRoute(hub.name);
    StrippedNamePortable(hub.name);
    RouteUnfolds(p, basePath, hub);
    var root := Join(p, "/", basePath);
    assert |root| > 0 && IsDirectorySeparator(p, root[0]) by {
      if basePath == "" {
        assert root == "/";
      } else if IsPathRooted(p, basePath) {
        assert root == basePath;
      } else {
        assert root == "/" + basePath;
      }
    }
    var whole := Join(p, root, s);
    assert |whole| > 0 && whole[0] == root[0] by {
      if s != "" {
        assert !IsPathRooted(p, s);
        assert whole[..|root|] == root;
      }
    }
    assert Replace(whole, '\\', '/')[0] == '/';
  }

  lemma RouteOfChatHub(p: Platform, ns: string, base: HubBase)
    ensures GetRoute(p, BasePath, HubType(ns, "ChatHub", base)) == "/hubs/Chat"
    ensures GetRoute(p, "", HubType(ns, "ChatHub", base)) == "/Chat"
    ensures GetRoute(p, "/api", HubType(ns, "ChatHub", base)) == "/api/Chat"
    ensures GetRoute(p, "/api/", HubType(ns, "ChatHub", base)) == "/api/Chat"
    ensures GetRoute(p, "/", HubType(ns, "ChatHub", base)) == "/Chat"
  {
    var hub := HubType(ns, "ChatHub", base);
    ConvertRoundTrip("Chat");
    assert "Chat" + HubSuffix == "ChatHub";
    assert IsTypeName("ChatHub");
    RouteOfPlainBase(p, BasePath, hub);
    assert "/" + BasePath + "/" + "Chat" == "/hubs/Chat";
    RouteOfEmptyBase(p, hub);
    assert "/" + "Chat" == "/Chat";
    RouteOfRootedBase(p, "/api", hub);
    assert "/api" + "/" + "Chat" == "/api/Chat";
    RouteOfRootedBase(p, "/api/", hub);
    assert "/api/" + "Chat" == "/api/Chat";
    RouteOfRootedBase(p, "/", hub);
    assert "/" + "Chat" == "/Chat";
  }

  lemma RouteOfLobby(p: Platform, ns: string, base: HubBase)
    ensures GetRoute(p, BasePath, HubType(ns, "Lobby", base)) == "/hubs/Lobby"
  {
    var hub := HubType(ns, "Lobby", base);
    assert "Lobby"[2..] != HubSuffix;
    assert IsTypeName("Lobby");
    RouteOfPlainBase(p, BasePath, hub);
    assert "/" + BasePath + "/" + "Lobby" == "/hubs/Lobby";
  }

  lemma RouteOfBareHub(p: Platform, ns: string, base: HubBase)
    ensures GetRoute(p, BasePath, HubType(ns, "Hub", base)) == "/hubs"
  {
    var hub := HubType(ns, "Hub", base);
    ConvertRoundTrip("");
    assert "" + HubSuffix == "Hub";
    assert IsTypeName("Hub");
    RouteOfPlainBase(p, BasePath, hub);
  }

  /** Routes are not unique: "Chat" and "ChatHub" in any namespaces share one. */
  lemma RoutesCollide(p: Platform, basePath: string, ns1: string, ns2: string, base1: HubBase, base2: HubBase)
    ensures GetRoute(p, basePath, HubType(ns1, "Chat", base1))
         == GetRoute(p, basePath, HubType(ns2, "ChatHub", base2))
  {
    ConvertExamples();
    assert "Chat"[1..] != HubSuffix;
  }

  /** Under a plain base, hubs whose stripped names differ get different routes. */
  lemma RoutesDistinguishStrippedNames(p: Platform, basePath: string, h1: HubType, h2: HubType)
    requires basePath != "" && '/' !in basePath && PortableSegment(basePath)
    requires IsTypeName(h1.name) && IsTypeName(h2.name)
    requires ConvertClassNameForRoute(h1.name) != ConvertClassNameForRoute(h2.name)
    ensures GetRoute(p, basePath, h1) != GetRoute(p, basePath, h2)
  {
    var s1, s2 := ConvertClassNameForRoute(h1.name), ConvertClassNameForRoute(h2.name);
    RouteOfPlainBase(p, basePath, h1);
    RouteOfPlainBase(p, basePath, h2);
    var prefix := "/" + basePath + "/";
    if s1 != "" && s2 != "" {
      assert GetRoute(p, basePath, h1) == prefix + s1;
      assert GetRoute(p, basePath, h2) == prefix + s2;
      assert (prefix + s1)[|prefix|..] == s1;
      assert (prefix + s2)[|prefix|..] == s2;
    }
  }

  /** A route under a plain base lies in the segments of "/<base>". */
  lemma RouteUnderBase(p: Platform, basePath: string, hub: HubType)
    requires basePath != "" && '/' !in basePath && PortableSegment(basePath)
    requires IsTypeName(hub.name)
    ensures PathStrings.StartsWithSegments(GetRoute(p, basePath, hub), "/" + basePath)
  {
    var s := ConvertClassNameForRoute(hub.name);
    RouteOfPlainBase(p, basePath, hub);
    if s == "" {
      PathStrings.SegmentAligned("/" + basePath, "");
      assert "/" + basePath + "" == "/" + basePath;
    } else {
      PathStrings.SegmentAligned("/" + basePath, "/" + s);
      assert "/" + basePath + ("/" + s) == "/" + basePath + "/" + s;
    }
  }
}
