/** `System.Security.Claims`: a claim is a typed string fact, and a principal
    carries an ordered sequence of claims in which a type may repeat. */
module Claims {

  /** `ClaimTypes.Name`. */
  const NameClaimType: string := "http://schemas.xmlsoap.org/ws/2005/05/identity/claims/name"

  datatype Claim = Claim(claimType: string, value: string)

  /** A `ClaimsPrincipal`, seen through its `Claims` enumeration. */
  datatype Principal = Principal(claims: seq<Claim>)
}
