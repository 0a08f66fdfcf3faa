/** `POST /api/auth/login` (src/app/api/auth/login/route.ts): validate the
    body, look the user up, compare the password, sign a token and set it as
    the session cookie. */
module Login {
  import opened Base
  import opened ApiErrors
  import opened Http
  import opened Validation
  import opened Cookies
  import opened Jwt
  import opened Users

  datatype LoginInput = LoginInput(email: string, password: string)

  const InvalidCredentials: string := "Invalid email or password"
  const LoginSuccessful: string := "Login successful"

  /** The one error an unknown email and a wrong password both produce. */
  function CredentialsError(): (e: ApiError)
    ensures e.statusCode == 400 && e.message == "Invalid email or password" && e.errors == []
  {
    NewApiError(400, InvalidCredentials)
  }

  /** The claims the token carries: exactly the user's id, email and name. */
  function ClaimsOf(user: User): (c: Claims)
    ensures c.userId == user.id && c.email == user.email && c.name == Some(user.name)
  {
    Claims(user.id, user.email, Some(user.name))
  }

  /** The body of the `try` block. `production` is `NODE_ENV === "production"`
      and `now` the signing time in seconds. */
  function Attempt(body: RequestBody, schema: Schema<LoginInput>, store: Store, compare: Comparer,
                   sign: Signer, production: bool, now: int): Result<Response<UserIdData>>
    requires WellKeyed(store)
  {
    var json :- ReadJson(body);
    var input :- Validate(schema(json));
    match FindByEmail(store, input.email)
    case None => Throw(CredentialsError())
    case Some(user) =>
      if !compare(input.password, user.password) then Throw(CredentialsError())
      else
        match sign(ClaimsOf(user), ExpiresIn, now)
        case None => Err(Foreign("JsonWebTokenError"))
        case Some(token) =>
          Ok(Response(200, Success(ApiResponse(200, UserIdData(user.id), Some(LoginSuccessful))),
                      Some(Serialized(SessionCookie(token, production)))))
  }

  /** The handler: the `try` block and its `catch`, in the order the checks
      run. A body that is not JSON is a 500; a rejected schema is a 400 with
      the schema's messages; an unknown email and a wrong password are the
      same 400; a token that cannot be signed is a 500; otherwise a 200 with
      the user's id and the session cookie. */
  function Post(body: RequestBody, schema: Schema<LoginInput>, store: Store, compare: Comparer,
                sign: Signer, production: bool, now: int): (resp: Response<UserIdData>)
    requires WellKeyed(store)
    ensures body.Unparsable? ==>
              resp == Response(500, Failure(NewApiError(500, InternalServerError)), None)
    ensures body.Json? && schema(body.value).Rejected? ==>
              resp == Response(400, Failure(NewApiError(400, ValidationFailed, FlatMessages(schema(body.value).fieldErrors))), None)
    ensures body.Json? && schema(body.value).Parsed? ==>
              var input := schema(body.value).data;
              (input.email !in store || !compare(input.password, store[input.email].password)) ==>
                resp == Response(400, Failure(CredentialsError()), None)
    ensures body.Json? && schema(body.value).Parsed? ==>
              var input := schema(body.value).data;
              (&& input.email in store
               && compare(input.password, store[input.email].password)
               && sign(ClaimsOf(store[input.email]), ExpiresIn, now).None?) ==>
                resp == Response(500, Failure(NewApiError(500, InternalServerError)), None)
    ensures resp.status == 200 <==>
              && body.Json? && schema(body.value).Parsed?
              && var input := schema(body.value).data;
                 && input.email in store
                 && compare(input.password, store[input.email].password)
                 && sign(ClaimsOf(store[input.email]), ExpiresIn, now).Some?
    ensures resp.status == 200 ==>
              var user := store[schema(body.value).data.email];
              var token := sign(ClaimsOf(user), ExpiresIn, now).value;
              resp == Response(200, Success(ApiResponse(200, UserIdData(user.id), Some("Login successful"))),
                               Some(Serialized(SessionCookie(token, production))))
    ensures resp.setCookie.Some? <==> resp.status == 200
  {
    CatchAuth(Attempt(body, schema, store, compare, sign, production, now))
  }

  /** A rejected body is answered before the store is read: two different
      stores give the same response. */
  lemma ValidationIgnoresStore(body: RequestBody, schema: Schema<LoginInput>, store1: Store, store2: Store,
                               compare: Comparer, sign: Signer, production: bool, now: int)
    requires WellKeyed(store1) && WellKeyed(store2)
    requires body.Json? && schema(body.value).Rejected?
    ensures Post(body, schema, store1, compare, sign, production, now) ==
            Post(body, schema, store2, compare, sign, production, now)
    ensures Post(body, schema, store1, compare, sign, production, now).status == 400
  {
  }

  /** Unknown email and wrong password get identical responses: whatever the
      stores, the response to a missing user equals the response to a known
      user with a password that does not match. (Response time, which differs
      because only a known email reaches `bcrypt.compare`, is not modelled.) */
  lemma UnknownEmailLooksLikeWrongPassword(body: RequestBody, schema: Schema<LoginInput>,
                                          store1: Store, store2: Store, compare: Comparer,
                                          sign: Signer, production: bool, now: int)
    requires WellKeyed(store1) && WellKeyed(store2)
    requires body.Json? && schema(body.value).Parsed?
    requires schema(body.value).data.email !in store1
    requires var input := schema(body.value).data;
             input.email in store2 && !compare(input.password, store2[input.email].password)
    ensures Post(body, schema, store1, compare, sign, production, now) ==
            Post(body, schema, store2, compare, sign, production, now)
  {
  }

  /** The session cookie a successful login sets: named `auth_token`,
      HttpOnly, SameSite=Strict, path "/", Secure exactly in production, and
      living exactly as long as the token it carries. */
  lemma SessionCookieShape(body: RequestBody, schema: Schema<LoginInput>, store: Store, compare: Comparer,
                           sign: Signer, production: bool, now: int)
    requires WellKeyed(store)
    ensures var resp := Post(body, schema, store, compare, sign, production, now);
            resp.setCookie.Some? ==>
              && resp.setCookie.value.Serialized?
              && var c := resp.setCookie.value.attrs;
                 && c.name == "auth_token" && c.httpOnly && c.sameSite == Some(Strict)
                 && c.path == Some("/") && (c.secure <==> production)
                 && c.maxAge == Some(LifetimeSeconds) && c.maxAge == Some(604800)
  {
  }
}
