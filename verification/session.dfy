/** `getUserFromCookie` (src/lib/auth.ts): the caller's identity, read from
    the `auth_token` cookie. */
module Session {
  import opened Base
  import opened Cookies
  import opened Jwt

  /** `{ id, email, name? }`. */
  datatype UserPayload = UserPayload(id: string, email: string, name: Option<string>)

  /** A missing or empty cookie and a token that fails to verify both give
      `None`; nothing is thrown. Otherwise the payload is copied field by
      field from the verified claims. */
  function GetUserFromCookie(cookies: map<string, string>, verify: Verifier, now: int): (u: Option<UserPayload>)
    ensures u.Some? <==> Verifies(RawToken(cookies), verify, now)
    ensures u.Some? ==>
              var c := verify(cookies[AuthCookieName], now).value;
              u.value == UserPayload(c.userId, c.email, c.name)
  {
    var token := RawToken(cookies);
    if !Present(token) then None
    else
      match verify(token.value, now)
      case None => None
      case Some(payload) => Some(UserPayload(payload.userId, payload.email, payload.name))
  }

  /** Without an `auth_token` cookie there is no user, whatever the verifier. */
  lemma NoCookieNoUser(cookies: map<string, string>, verify: Verifier, now: int)
    requires AuthCookieName !in cookies
    ensures GetUserFromCookie(cookies, verify, now) == None
  {
  }
}
