/** Properties that span several routes: a session starts at login, lasts as
    long as its cookie and token both live, and ends at logout; a new account
    can log in. The browser in between is the cookie jar of `Cookies`. */
module Flows {
  import opened Base
  import opened Http
  import opened Cookies
  import opened Jwt
  import opened Users
  import opened Session
  import opened Middleware
  import opened Validation
  import Login
  import Register
  import Logout

  /** The guard and `getUserFromCookie` agree on protected pages: the guard
      lets a request through exactly when the handler will see a user. */
  lemma GuardAgreesWithSession(url: Url, cookies: map<string, string>, verify: Verifier, now: int)
    requires !IsPublic(url.pathname)
    ensures Guard(url, cookies, verify, now) == Next <==> GetUserFromCookie(cookies, verify, now).Some?
  {
  }

  /** After a successful login at time `now`, with libraries that agree on the
      token lifetime, the browser's `auth_token` and the token in it expire at
      the same instant: until `now + LifetimeSeconds` every request carries the
      cookie and is recognised as the user who logged in, and protected pages
      are served; from then on the cookie is gone, there is no user, and
      protected pages redirect to the login page. */
  lemma LoginStartsSession(body: RequestBody, schema: Schema<Login.LoginInput>, store: Store,
                            compare: Comparer, sign: Signer, verify: Verifier, production: bool,
                            now: int, jar: Jar, t: int, url: Url)
    requires WellKeyed(store) && Honest(sign, verify)
    requires Login.Post(body, schema, store, compare, sign, production, now).status == 200
    requires now <= t && !IsPublic(url.pathname)
    ensures var resp := Login.Post(body, schema, store, compare, sign, production, now);
            var jar' := Receive(jar, resp.setCookie.value.attrs, now);
            var user := store[schema(body.value).data.email];
            && (t < now + LifetimeSeconds ==>
                  && GetUserFromCookie(CookiesAt(jar', t), verify, t) == Some(UserPayload(user.id, user.email, Some(user.name)))
                  && Guard(url, CookiesAt(jar', t), verify, t) == Next)
            && (t >= now + LifetimeSeconds ==>
                  && AuthCookieName !in CookiesAt(jar', t)
                  && GetUserFromCookie(CookiesAt(jar', t), verify, t) == None
                  && Guard(url, CookiesAt(jar', t), verify, t) == Redirect(url.(pathname := "/login")))
  {
    var resp := Login.Post(body, schema, store, compare, sign, production, now);
    var user := store[schema(body.value).data.email];
    var claims := Login.ClaimsOf(user);
    var token := sign(claims, ExpiresIn, now).value;
    var c := resp.setCookie.value.attrs;
    assert c == SessionCookie(token, production);
    var jar' := Receive(jar, c, now);
    assert jar'[AuthCookieName] == StoredCookie(token, Some(now + LifetimeSeconds));
    var cookies := CookiesAt(jar', t);
    if t < now + LifetimeSeconds {
      assert cookies[AuthCookieName] == token;
      assert verify(token, t) == Some(claims);
    } else {
      assert !Live(jar'[AuthCookieName], t);
    }
  }

  /** After the browser stores the logout header, at any later time there is
      no session and every protected page redirects to the login page,
      whatever token the jar held before. */
  lemma LogoutEndsSession(production: bool, jar: Jar, now: int, t: int, verify: Verifier, url: Url)
    requires !IsPublic(url.pathname)
    ensures var header := Logout.Post(production).setCookie.value.header;
            var jar' := Receive(jar, ParseSetCookie(header).value, now);
            && AuthCookieName !in CookiesAt(jar', t)
            && GetUserFromCookie(CookiesAt(jar', t), verify, t) == None
            && Guard(url, CookiesAt(jar', t), verify, t) == Redirect(url.(pathname := "/login"))
  {
  }

  /** A user who has just registered can log in with the same email and
      password, provided bcrypt accepts a password against its own hash and
      the token can be signed; the session is for the new user's id. */
  lemma RegisterThenLogin(regBody: RequestBody, regSchema: Schema<Register.RegisterInput>,
                          loginBody: RequestBody, loginSchema: Schema<Login.LoginInput>,
                          store: Store, hash: Hasher, compare: Comparer, sign: Signer,
                          newId: string, production: bool, now: int)
    requires WellKeyed(store)
    requires regBody.Json? && regSchema(regBody.value).Parsed?
    requires regSchema(regBody.value).data.email !in store
    requires var r := regSchema(regBody.value).data;
             && loginBody.Json? && loginSchema(loginBody.value) == Parsed(Login.LoginInput(r.email, r.password))
             && compare(r.password, hash(r.password, Register.SaltRounds))
             && sign(Claims(newId, r.email, Some(r.name)), ExpiresIn, now).Some?
    ensures var (store', _) := Register.Post(regBody, regSchema, store, hash, newId);
            var resp := Login.Post(loginBody, loginSchema, store', compare, sign, production, now);
            && resp.status == 200
            && resp.body == Success(ApiResponse(200, UserIdData(newId), Some("Login successful")))
  {
  }
}
