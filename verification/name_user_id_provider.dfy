/** `NameUserIdProvider`: a connection's user id is the lower-cased value of
    the first claim of the configured type. Claim types compare ordinally;
    only the value is case-folded. */
module NameUserIdProvider {
  import opened Wrappers
  import opened AsciiText
  import opened Claims

  /** The provider; a null claim type (`Option.None`) matches no claim. */
  datatype Provider = Provider(userIdClaimName: Option<string>)

  /** A hub connection, seen through its `User`, which may be null. */
  datatype HubConnectionContext = HubConnectionContext(user: Option<Principal>)

  /** The constructor with its default argument, `ClaimTypes.Name`. */
  function Default(): (p: Provider)
    ensures p.userIdClaimName == Some(NameClaimType)
  {
    Provider(Some(NameClaimType))
  }

  /** `x.Type == UserIdClaimName`. */
  predicate Matches(c: Claim, claimName: Option<string>) {
    claimName == Some(c.claimType)
  }

  predicate HasClaimOfType(claims: seq<Claim>, claimName: Option<string>) {
    exists c :: c in claims && Matches(c, claimName)
  }

  /** Position `i` holds the first claim of the type. */
  predicate IsFirstOfType(claims: seq<Claim>, i: int, claimName: Option<string>) {
    && 0 <= i < |claims|
    && Matches(claims[i], claimName)
    && forall j :: 0 <= j < i ==> !Matches(claims[j], claimName)
  }

  /** The position `FirstOrDefault` stops at: the first claim of the type. */
  function FirstIndexOfType(claims: seq<Claim>, claimName: Option<string>): (r: Option<nat>)
    ensures r.Some? ==> r.value < |claims| && Matches(claims[r.value], claimName)
    ensures r.Some? ==> forall j :: 0 <= j < r.value ==> !Matches(claims[j], claimName)
    ensures r.None? ==> forall j :: 0 <= j < |claims| ==> !Matches(claims[j], claimName)
  {
    if claims == [] then None
    else if Matches(claims[0], claimName) then Some(0)
    else
      match FirstIndexOfType(claims[1..], claimName)
      case None => None
      case Some(i) => Some(i + 1)
  }

  /** `GetUserId(ClaimsPrincipal user)`. */
  function GetUserId(provider: Provider, user: Option<Principal>): (r: Option<string>)
    ensures r.Some? <==> user.Some? && HasClaimOfType(user.value.claims, provider.userIdClaimName)
    ensures r.Some? ==> exists i :: IsFirstOfType(user.value.claims, i, provider.userIdClaimName)
                               && r.value == ToLower(user.value.claims[i].value)
  {
    match user
    case None => None
    case Some(u) =>
      match FirstIndexOfType(u.claims, provider.userIdClaimName)
      case None => None
      case Some(i) => Some(ToLower(u.claims[i].value))
  }

  /** `GetUserId(HubConnectionContext connection)`: the id of the connection's user. */
  function GetUserIdOfConnection(provider: Provider, connection: HubConnectionContext): (r: Option<string>)
    ensures r == GetUserId(provider, connection.user)
  {
    GetUserId(provider, connection.user)
  }

  /** First match wins: claims after the first claim of the type never affect
      the id, and when the front holds none the id comes from the rest. */
  lemma {:induction false} FirstMatchWins(provider: Provider, front: seq<Claim>, rest: seq<Claim>)
    ensures (exists i :: 0 <= i < |front| && Matches(front[i], provider.userIdClaimName))
        ==> GetUserId(provider, Some(Principal(front + rest))) == GetUserId(provider, Some(Principal(front)))
    ensures (forall i :: 0 <= i < |front| ==> !Matches(front[i], provider.userIdClaimName))
        ==> GetUserId(provider, Some(Principal(front + rest))) == GetUserId(provider, Some(Principal(rest)))
  {
    FirstIndexOfConcat(front, rest, provider.userIdClaimName);
  }

  /** The first match in a concatenation is the front's, else the rest's shifted by the front's length. */
  lemma {:induction false} FirstIndexOfConcat(front: seq<Claim>, rest: seq<Claim>, claimName: Option<string>)
    ensures FirstIndexOfType(front, claimName).Some? ==> FirstIndexOfType(front + rest, claimName) == FirstIndexOfType(front, claimName)
    ensures FirstIndexOfType(front, claimName).None?
        ==> FirstIndexOfType(front + rest, claimName)
            == (match FirstIndexOfType(rest, claimName) case None => None case Some(i) => Some(i + |front|))
    decreases |front|
  {
    if front != [] {
      assert (front + rest)[0] == front[0];
      assert (front + rest)[1..] == front[1..] + rest;
      FirstIndexOfConcat(front[1..], rest, claimName);
    } else {
      assert front + rest == rest;
    }
  }

  /** A null user, or a user without a claim of the type, has no id. */
  lemma NoIdWithoutClaim(provider: Provider, user: Option<Principal>)
    requires user.None? || forall c :: c in user.value.claims ==> !Matches(c, provider.userIdClaimName)
    ensures GetUserId(provider, user) == None
  {
  }

  /** The id is lower case, and it ignores the case of the claim value only. */
  lemma IdIsLowerCase(provider: Provider, user: Option<Principal>)
    requires GetUserId(provider, user).Some?
    ensures forall i :: 0 <= i < |GetUserId(provider, user).value| ==> !IsUpper(GetUserId(provider, user).value[i])
  {
  }

  /** The worked example: the "name" claim after a "role" claim gives "alice";
      a claim of type "Name" is not a "name" claim; no claims give no id. */
  lemma Examples()
    ensures GetUserId(Provider(Some("name")),
                      Some(Principal([Claim("role", "admin"), Claim("name", "Alice")]))) == Some("alice")
    ensures GetUserId(Provider(Some("name")), Some(Principal([Claim("Name", "Alice")]))) == None
    ensures GetUserId(Provider(Some("name")),
                      Some(Principal([Claim("name", "Bob"), Claim("name", "Alice")]))) == Some("bob")
    ensures GetUserId(Default(), Some(Principal([]))) == None
    ensures GetUserId(Default(), None) == None
  {
    var claims := [Claim("role", "admin"), Claim("name", "Alice")];
    assert claims[1..][0] == Claim("name", "Alice");
    assert FirstIndexOfType(claims, Some("name")) == Some(1);
    assert ToLower("Alice") == "alice";
    var bob := [Claim("name", "Bob"), Claim("name", "Alice")];
    assert FirstIndexOfType(bob, Some("name")) == Some(0);
    assert ToLower("Bob") == "bob";
    assert !Matches(Claim("Name", "Alice"), Some("name"));
  }
}
