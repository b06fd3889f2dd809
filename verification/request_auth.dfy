/**
 * `extractUserId`, written identically in both controllers: the caller's
 * user id as read from the `Authorization` header.
 */
module RequestAuth {
  import opened Wrappers
  import opened Text
  import opened Jwt

  const BearerPrefix: string := "Bearer "

  /** The user every request is made as when no JWT service is configured. */
  const MockUserId: string := "mock-user-id"

  /** The header text after "Bearer " when the header is present and starts with it (`substring(7)`). */
  function BearerToken(header: Option<string>): (r: Option<string>)
    ensures r.Some? <==> header.Some? && StartsWith(header.value, BearerPrefix)
    ensures r.Some? ==> header.value == BearerPrefix + r.value
  {
    if header.Some? && StartsWith(header.value, BearerPrefix) then Some(header.value[7..]) else None
  }

  /** The header a client sends to present `token`. */
  function BearerHeader(token: string): (h: Option<string>)
    ensures h.Some? && StartsWith(h.value, BearerPrefix)
  {
    Some(BearerPrefix + token)
  }

  /** Reading the token back out of the header gives the token sent. */
  lemma BearerRoundTrip(token: string)
    ensures BearerToken(BearerHeader(token)) == Some(token)
  {
    assert (BearerPrefix + token)[7..] == token;
  }

  /**
   * `extractUserId`: the mock user without a JWT service; otherwise null
   * for a missing or non-Bearer header, and the token's subject for a
   * Bearer header, null when the token does not verify.
   */
  function ExtractUserId(jwt: Option<Verifier>, header: Option<string>): (r: Option<string>)
    ensures jwt.None? ==> r == Some(MockUserId)
    ensures jwt.Some? && BearerToken(header).None? ==> r.None?
    ensures jwt.Some? && BearerToken(header).Some? ==> r == ExtractSubject(jwt.value, BearerToken(header).value)
  {
    match jwt
    case None => Some(MockUserId)
    case Some(v) =>
      if header.Some? && StartsWith(header.value, BearerPrefix) then ExtractSubject(v, header.value[7..]) else None
  }

  /** With a JWT service, a caller is identified exactly when a Bearer header carries a token with a subject. */
  lemma IdentifiedIffSubject(v: Verifier, token: string)
    ensures ExtractUserId(Some(v), BearerHeader(token)) == ExtractSubject(v, token)
    ensures ExtractUserId(Some(v), BearerHeader(token)).Some? <==>
      v.parse(token).Success? && v.parse(token).value.subject.Some?
  {
    BearerRoundTrip(token);
  }
}
