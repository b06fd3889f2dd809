/**
 * `SupabaseJwtService`: what the code makes of a token's claims. Signature
 * and expiry checking belong to the JWT library and are a parameter here.
 */
module Jwt {
  import opened Wrappers
  import opened Text

  /**
   * A custom claim as a typed read `get(name, String.class)` sees it: absent,
   * a string, or a value of another type (a number, a list), for which the
   * read throws with the given message.
   */
  datatype Claim = NoClaim | StringClaim(text: string) | OtherClaim(typeError: string)

  /** The claims of a verified token: the standard `sub` claim, which may be missing, and the `email` and `role` claims. */
  datatype Claims = Claims(subject: Option<string>, email: Claim, role: Claim)

  /** The value of a claim read as a string: null when it is absent. */
  function AsString(c: Claim): (r: Option<string>)
    requires !c.OtherClaim?
    ensures r.Some? <==> c.StringClaim?
    ensures r.Some? ==> r.value == c.text
  {
    if c.StringClaim? then Some(c.text) else None
  }

  /** The library's parse-and-verify step: the claims of a token that verifies, or the message of what it throws. */
  datatype Verifier = Verifier(parse: string -> Result<Claims, string>)

  /** The authentication token handed to Spring Security: a principal and the granted authorities. */
  datatype Authentication = Authentication(principal: Option<string>, authorities: seq<string>)

  const InvalidTokenPrefix: string := "Invalid JWT token: "
  const RolePrefix: string := "ROLE_"
  const DefaultRole: string := "USER"

  /** `extractSubject`: the `sub` claim of a token that verifies; a token that does not gives null and nothing is thrown. */
  function ExtractSubject(v: Verifier, token: string): (r: Option<string>)
    ensures v.parse(token).Failure? ==> r.None?
    ensures v.parse(token).Success? ==> r == v.parse(token).value.subject
  {
    match v.parse(token)
    case Failure(_) => None
    case Success(claims) => claims.subject
  }

  /** The single granted authority: "ROLE_" and the upper-cased role, or "ROLE_USER" without a role. */
  function Authority(role: Option<string>): (r: string)
    ensures StartsWith(r, RolePrefix)
    ensures role.Some? ==> r[|RolePrefix|..] == ToUpper(role.value)
    ensures role.None? ==> r[|RolePrefix|..] == DefaultRole
    ensures forall i :: |RolePrefix| <= i < |r| ==> !('a' <= r[i] <= 'z')
  {
    RolePrefix + (if role.Some? then ToUpper(role.value) else DefaultRole)
  }

  /**
   * `validateToken`: a parse or verification failure, or an `email` or
   * `role` claim that is not a string, is rethrown as a `RuntimeException`
   * carrying its message; otherwise the principal is the email claim when
   * present and the subject when not, with one authority.
   */
  function ValidateToken(v: Verifier, token: string): (r: Result<Authentication, Exception>)
    ensures r.Failure? <==>
      v.parse(token).Failure? || v.parse(token).value.email.OtherClaim? || v.parse(token).value.role.OtherClaim?
    ensures v.parse(token).Failure? ==> r == Failure(Runtime(InvalidTokenPrefix + v.parse(token).error))
    ensures v.parse(token).Success? && v.parse(token).value.email.OtherClaim? ==>
      r == Failure(Runtime(InvalidTokenPrefix + v.parse(token).value.email.typeError))
    ensures v.parse(token).Success? && !v.parse(token).value.email.OtherClaim? && v.parse(token).value.role.OtherClaim? ==>
      r == Failure(Runtime(InvalidTokenPrefix + v.parse(token).value.role.typeError))
    ensures r.Success? ==>
      var claims := v.parse(token).value;
      && r.value.principal == (if claims.email.StringClaim? then Some(claims.email.text) else claims.subject)
      && r.value.authorities == [Authority(AsString(claims.role))]
  {
    match v.parse(token)
    case Failure(message) => Failure(Runtime(InvalidTokenPrefix + message))
    case Success(claims) =>
      if claims.email.OtherClaim? then Failure(Runtime(InvalidTokenPrefix + claims.email.typeError))
      else if claims.role.OtherClaim? then Failure(Runtime(InvalidTokenPrefix + claims.role.typeError))
      else
        var email := AsString(claims.email);
        var principal := if email.Some? then email else claims.subject;
        Success(Authentication(principal, [Authority(AsString(claims.role))]))
  }

  /**
   * How the two readings of a token relate: a token that does not verify is
   * rejected by both; a token `validateToken` accepts has the subject
   * `extractSubject` reads, and without an email claim that subject is the
   * principal.
   */
  lemma ValidateAgreesWithExtract(v: Verifier, token: string)
    ensures v.parse(token).Failure? ==> ValidateToken(v, token).Failure? && ExtractSubject(v, token).None?
    ensures ValidateToken(v, token).Success? ==> ExtractSubject(v, token) == v.parse(token).value.subject
    ensures ValidateToken(v, token).Success? && v.parse(token).value.email.NoClaim? ==>
      ValidateToken(v, token).value.principal == ExtractSubject(v, token)
  {
  }

  /**
   * The readings can disagree: a verified token whose `email` claim is a
   * number is rejected by `validateToken`, while `extractSubject`, which
   * reads only the subject, still returns it.
   */
  lemma ExtractAcceptsWhatValidateRejects()
    ensures var v := Verifier(_ => Success(Claims(Some("user-1"), OtherClaim("not a string"), NoClaim)));
      && ValidateToken(v, "t").Failure?
      && ExtractSubject(v, "t") == Some("user-1")
  {
  }

  /** Roles that differ only in the case of their letters grant the same authority. */
  lemma AuthorityIgnoresCase(role: string)
    ensures Authority(Some(ToUpper(role))) == Authority(Some(role))
  {
    ToUpperIdempotent(role);
  }

  /** Distinct authorities come from roles that differ in more than letter case. */
  lemma AuthorityDeterminesUpperRole(a: Option<string>, b: Option<string>)
    requires a.Some? && b.Some?
    requires Authority(a) == Authority(b)
    ensures ToUpper(a.value) == ToUpper(b.value)
  {
    assert Authority(a)[|RolePrefix|..] == Authority(b)[|RolePrefix|..];
  }
}
