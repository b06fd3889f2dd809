/**
 * `MockAuthController`: the in-memory login used by the local profile. A
 * user store from e-mail to password, which like a `HashMap` admits a
 * missing (null) e-mail or password, and a session store from access token
 * to user. A `NullPointerException` thrown by the code ends the request
 * with 500.
 */
module MockAuth {
  import opened Wrappers
  import opened Text
  import opened RequestAuth
  import opened Responses

  datatype MockUser = MockUser(id: string, email: string, role: string)

  datatype AuthState = AuthState(users: map<Option<string>, Option<string>>, sessions: map<string, MockUser>)

  /**
   * The two library calls that derive a session: the name-based UUID of an
   * e-mail and the Base64 encoding of a token payload.
   */
  datatype Codec = Codec(nameUuid: string -> string, base64: string -> string)

  const Role: string := "authenticated"

  /** The users the controller starts with. */
  const Initial: AuthState := AuthState(
    map[Some("user@test.com") := Some("password"), Some("admin@test.com") := Some("admin"), Some("dev@test.com") := Some("dev")],
    map[])

  const SubPrefix: string := "{\"sub\":\""
  const EmailInfix: string := "\",\"email\":\""
  const RoleSuffix: string := "\",\"role\":\"authenticated\"}"

  /** The JSON the mock token encodes, the id and e-mail inserted verbatim. */
  function Payload(userId: string, email: string): string {
    SubPrefix + (userId + (EmailInfix + (email + RoleSuffix)))
  }

  /** Reads the id and e-mail back out of a payload: the id ends at the first quote. */
  function DecodePayload(p: string): (r: Option<(string, string)>)
    ensures r.Some? ==> StartsWith(p, SubPrefix)
  {
    if !StartsWith(p, SubPrefix) then None
    else
      var rest := p[|SubPrefix|..];
      var i := IndexOf(rest, "\"");
      if i < 0 then None
      else
        var after := rest[i..];
        if !StartsWith(after, EmailInfix) || |after| < |EmailInfix| + |RoleSuffix| then None
        else
          var tail := after[|EmailInfix|..];
          if tail[|tail| - |RoleSuffix|..] != RoleSuffix then None
          else Some((rest[..i], tail[..|tail| - |RoleSuffix|]))
  }

  /** The two halves of a concatenation are its prefix and the rest. */
  lemma Halves(a: string, b: string)
    ensures (a + b)[..|a|] == a && (a + b)[|a|..] == b
    ensures (a + b)[..|a + b| - |b|] == a && (a + b)[|a + b| - |b|..] == b
  {
  }

  /** A payload gives back its id and e-mail whenever the id has no quote, as a UUID string has none. */
  lemma PayloadRoundTrip(userId: string, email: string)
    requires '"' !in userId
    ensures DecodePayload(Payload(userId, email)) == Some((userId, email))
  {
    var tail := email + RoleSuffix;
    var after := EmailInfix + tail;
    var rest := userId + after;
    Halves(SubPrefix, rest);
    Halves(userId, after);
    Halves(EmailInfix, tail);
    Halves(email, RoleSuffix);
    assert after == "\"" + (EmailInfix[1..] + tail);
    assert rest == userId + "\"" + (EmailInfix[1..] + tail);
    IndexOfAfterFree(userId, "\"", EmailInfix[1..] + tail);
  }

  /** Two sessions' payloads are equal only for the same id and e-mail. */
  lemma PayloadInjective(u1: string, e1: string, u2: string, e2: string)
    requires '"' !in u1 && '"' !in u2
    requires Payload(u1, e1) == Payload(u2, e2)
    ensures u1 == u2 && e1 == e2
  {
    PayloadRoundTrip(u1, e1);
    PayloadRoundTrip(u2, e2);
  }

  /** `generateMockToken`. */
  function Token(codec: Codec, userId: string, email: string): string {
    codec.base64(Payload(userId, email))
  }

  /** The user object of every answer: id, e-mail and role. */
  function UserObject(user: MockUser): (v: Value)
    ensures v.Object? && v.fields.Keys == {"id", "email", "role"}
    ensures v.fields["id"] == Str(user.id) && v.fields["email"] == Str(user.email) && v.fields["role"] == Str(user.role)
  {
    Object(map["id" := Str(user.id), "email" := Str(user.email), "role" := Str(user.role)])
  }

  /** The JSON error object `{error, message}` of a rejected request. */
  function Error(error: string, message: string): (m: map<string, Value>)
    ensures m.Keys == {"error", "message"}
    ensures m["error"] == Str(error) && m["message"] == Str(message)
  {
    map["error" := Str(error), "message" := Str(message)]
  }

  /** The answer when the code dereferences null: Spring's 500, whose body is not modelled. */
  const Crash: Response := Response(InternalServerError, NoBody)

  const InvalidCredentials: Response :=
    Response(BadRequest, Fields(Error("Invalid credentials", "Email or password is incorrect")))
  const UserExists: Response :=
    Response(BadRequest, Fields(Error("User already exists", "A user with this email already exists")))
  const NotAuthenticated: Response :=
    Response(Unauthorized, Fields(Error("Not authenticated", "No valid session found")))

  /**
   * A well-formed session: the user's id is the UUID of the e-mail, the
   * role is "authenticated", and the token is the encoded payload of both.
   */
  predicate SessionsWellFormed(state: AuthState, codec: Codec) {
    forall token :: token in state.sessions ==>
      && state.sessions[token].id == codec.nameUuid(state.sessions[token].email)
      && state.sessions[token].role == Role
      && token == Token(codec, state.sessions[token].id, state.sessions[token].email)
  }

  /**
   * The shared tail of `login` and `register`: a session under a fresh
   * token for the e-mail, answered with the token, the user, and both again
   * as the session object.
   */
  function OpenSession(state: AuthState, codec: Codec, email: string): (r: (AuthState, Response))
    ensures var user := MockUser(codec.nameUuid(email), email, Role);
      var token := Token(codec, user.id, email);
      && r.0 == state.(sessions := state.sessions[token := user])
      && r.1.status == Ok
      && Field(r.1, "access_token") == Str(token)
      && Field(r.1, "user") == UserObject(user)
      && Field(r.1, "session").Object?
      && Field(r.1, "session").fields == map["access_token" := Str(token), "user" := UserObject(user)]
    ensures SessionsWellFormed(state, codec) ==> SessionsWellFormed(r.0, codec)
  {
    var user := MockUser(codec.nameUuid(email), email, Role);
    var token := Token(codec, user.id, email);
    var session := Object(map["access_token" := Str(token), "user" := UserObject(user)]);
    (state.(sessions := state.sessions[token := user]),
     Response(Ok, Fields(map["access_token" := Str(token), "user" := UserObject(user), "session" := session])))
  }

  /**
   * `login`: 400 for an unknown e-mail or a wrong or missing password, a
   * session otherwise. A user registered without a password, or under a
   * missing e-mail, makes the request fail with 500.
   */
  function Login(state: AuthState, codec: Codec, email: Option<string>, password: Option<string>): (r: (AuthState, Response))
    ensures r.0.users == state.users
    ensures r.1.status != Ok ==> r.0 == state
    ensures email !in state.users ==> r.1 == InvalidCredentials
    ensures email in state.users && state.users[email].None? ==> r.1 == Crash
    ensures email in state.users && state.users[email].Some? && state.users[email] != password ==> r.1 == InvalidCredentials
    ensures r.1.status == Ok <==> email.Some? && email in state.users && state.users[email].Some? && state.users[email] == password
    ensures r.1.status == Ok ==> r == OpenSession(state, codec, email.value)
    ensures SessionsWellFormed(state, codec) ==> SessionsWellFormed(r.0, codec)
  {
    if email !in state.users then (state, InvalidCredentials)
    else
      match state.users[email]
      case None => (state, Crash)
      case Some(stored) =>
        if password != Some(stored) then (state, InvalidCredentials)
        else if email.None? then (state, Crash)
        else OpenSession(state, codec, email.value)
  }

  /**
   * `register`: 400 and nothing stored for a known e-mail; otherwise the
   * pair is stored, then a session is opened, except that a missing e-mail
   * fails with 500 after the pair was stored.
   */
  function Register(state: AuthState, codec: Codec, email: Option<string>, password: Option<string>): (r: (AuthState, Response))
    ensures email in state.users <==> r.1 == UserExists
    ensures email in state.users ==> r.0 == state
    ensures email !in state.users ==> r.0.users == state.users[email := password]
    ensures email !in state.users && email.None? ==> r.1 == Crash && r.0.sessions == state.sessions
    ensures r.1.status == Ok <==> email !in state.users && email.Some?
    ensures r.1.status == Ok ==> r == OpenSession(state.(users := state.users[email := password]), codec, email.value)
    ensures SessionsWellFormed(state, codec) ==> SessionsWellFormed(r.0, codec)
  {
    if email in state.users then (state, UserExists)
    else
      var registered := state.(users := state.users[email := password]);
      if email.None? then (registered, Crash)
      else OpenSession(registered, codec, email.value)
  }

  /** `logout`: the Bearer token's session is dropped, if there is one, and the answer is always 200. */
  function Logout(state: AuthState, header: Option<string>): (r: (AuthState, Response))
    ensures r.0.users == state.users
    ensures BearerToken(header).Some? ==> r.0.sessions == state.sessions - {BearerToken(header).value}
    ensures BearerToken(header).None? ==> r.0 == state
    ensures r.1 == Response(Ok, Fields(map["message" := Str("Logged out successfully")]))
  {
    var answer := Response(Ok, Fields(map["message" := Str("Logged out successfully")]));
    match BearerToken(header)
    case Some(token) => (state.(sessions := state.sessions - {token}), answer)
    case None => (state, answer)
  }

  /** The user of the session the Bearer header names, if it names one. */
  function SessionUser(state: AuthState, header: Option<string>): (r: Option<MockUser>)
    ensures r.Some? <==> BearerToken(header).Some? && BearerToken(header).value in state.sessions
    ensures r.Some? ==> r.value == state.sessions[BearerToken(header).value]
  {
    match BearerToken(header)
    case Some(token) => if token in state.sessions then Some(state.sessions[token]) else None
    case None => None
  }

  /** The 200 body `getSession` builds for a live session: the token and the user. */
  function SessionBody(header: Option<string>, user: MockUser): (m: map<string, Value>)
    requires BearerToken(header).Some?
    ensures m.Keys == {"access_token", "user"}
  {
    map["access_token" := Str(BearerToken(header).value), "user" := UserObject(user)]
  }

  /**
   * `getSession` as written: without a live session it answers
   * `Map.of("session", null)`, and `Map.of` rejects a null value with a
   * `NullPointerException`, so the request fails with 500.
   */
  function GetSessionAsWritten(state: AuthState, header: Option<string>): (r: Response)
    ensures SessionUser(state, header).Some? ==> r == Response(Ok, Fields(SessionBody(header, SessionUser(state, header).value)))
    ensures SessionUser(state, header).None? ==> r == Crash
  {
    match SessionUser(state, header)
    case Some(user) => Response(Ok, Fields(SessionBody(header, user)))
    case None => Crash
  }

  /** Asking for the session before logging in fails with 500 instead of reporting that there is none. */
  lemma GetSessionAsWrittenCrashesWhenLoggedOut()
    ensures GetSessionAsWritten(Initial, None) == Crash
    ensures GetSessionAsWritten(Initial, None).status == InternalServerError
  {
  }

  /**
   * `getSession` as intended: the session for a live token, and otherwise
   * 200 with `session` null, which is what the client expects.
   */
  function GetSession(state: AuthState, header: Option<string>): (r: Response)
    ensures r.status == Ok
    ensures SessionUser(state, header).Some? ==> r.body == Fields(SessionBody(header, SessionUser(state, header).value))
    ensures SessionUser(state, header).None? <==> r.body == Fields(map["session" := Null])
  {
    match SessionUser(state, header)
    case Some(user) => Response(Ok, Fields(SessionBody(header, user)))
    case None => Response(Ok, Fields(map["session" := Null]))
  }

  /** The corrected `getSession` answers exactly as written wherever that does not crash, and never crashes. */
  lemma GetSessionAgreesWhereWrittenWorks(state: AuthState, header: Option<string>)
    ensures GetSessionAsWritten(state, header) != Crash ==> GetSession(state, header) == GetSessionAsWritten(state, header)
    ensures GetSession(state, header) != Crash
  {
  }

  /** `getUser`: the session's user and `authenticated` true, or 401 without a live session. */
  function GetUser(state: AuthState, header: Option<string>): (r: Response)
    ensures SessionUser(state, header).None? <==> r == NotAuthenticated
    ensures SessionUser(state, header).Some? ==>
      var user := SessionUser(state, header).value;
      && r.status == Ok
      && Field(r, "id") == Str(user.id) && Field(r, "email") == Str(user.email)
      && Field(r, "role") == Str(user.role) && Field(r, "authenticated") == Flag(true)
  {
    match SessionUser(state, header)
    case Some(user) =>
      Response(Ok, Fields(map["id" := Str(user.id), "email" := Str(user.email), "role" := Str(user.role),
                              "authenticated" := Flag(true)]))
    case None => NotAuthenticated
  }

  /** The token a successful login hands out identifies its user to `getUser` and `getSession`. */
  lemma LoginThenUser(state: AuthState, codec: Codec, email: Option<string>, password: Option<string>)
    requires Login(state, codec, email, password).1.status == Ok
    ensures var (state', r) := Login(state, codec, email, password);
      var token := Field(r, "access_token").text;
      var user := MockUser(codec.nameUuid(email.value), email.value, Role);
      && Field(r, "access_token").Str?
      && SessionUser(state', BearerHeader(token)) == Some(user)
      && Field(GetUser(state', BearerHeader(token)), "email") == Str(email.value)
      && GetSession(state', BearerHeader(token)).body == Fields(map["access_token" := Str(token), "user" := UserObject(user)])
  {
    var (state', r) := Login(state, codec, email, password);
    var token := Field(r, "access_token").text;
    BearerRoundTrip(token);
  }

  /** A login leaves every other token's session as it was. */
  lemma LoginKeepsOtherSessions(state: AuthState, codec: Codec, email: Option<string>, password: Option<string>, token: string)
    requires token in state.sessions
    requires Field(Login(state, codec, email, password).1, "access_token") != Str(token)
    ensures var state' := Login(state, codec, email, password).0;
      token in state'.sessions && state'.sessions[token] == state.sessions[token]
  {
  }

  /** A user who has just registered with a password can log in with it. */
  lemma RegisterThenLogin(state: AuthState, codec: Codec, email: string, password: string)
    requires Register(state, codec, Some(email), Some(password)).1.status == Ok
    ensures var state' := Register(state, codec, Some(email), Some(password)).0;
      Login(state', codec, Some(email), Some(password)).1.status == Ok
  {
  }

  /** Once a token has logged out, `getUser` no longer recognises it and `getSession` reports no session. */
  lemma LogoutThenUser(state: AuthState, token: string)
    ensures var state' := Logout(state, BearerHeader(token)).0;
      && GetUser(state', BearerHeader(token)) == NotAuthenticated
      && GetSession(state', BearerHeader(token)).body == Fields(map["session" := Null])
  {
    BearerRoundTrip(token);
  }

  /** Each preconfigured user logs in with its password. */
  lemma PreconfiguredUsersLogIn(codec: Codec)
    ensures Login(Initial, codec, Some("user@test.com"), Some("password")).1.status == Ok
    ensures Login(Initial, codec, Some("admin@test.com"), Some("admin")).1.status == Ok
    ensures Login(Initial, codec, Some("dev@test.com"), Some("dev")).1.status == Ok
    ensures Initial.sessions == map[] && SessionsWellFormed(Initial, codec)
  {
  }
}
