/** `POST /api/auth/logout` (src/app/api/auth/logout/route.ts). */
module Logout {
  import opened Base
  import opened ApiErrors
  import opened Http
  import opened Cookies

  const LogoutSuccessful: string := "Logout successful"

  /** The handler reads nothing from the request: any caller gets a 200 with
      the success message and the literal clearing header, which a browser
      reads as the session cookie emptied, with `Max-Age=0`, `HttpOnly`,
      `Path=/`, `SameSite=Strict`, and `Secure` exactly in production. */
  function Post(production: bool): (resp: Response<NullData>)
    ensures resp.status == 200 && resp.body == Message("Logout successful")
    ensures resp.setCookie.Some? && resp.setCookie.value.Literal?
    ensures var c := ParseSetCookie(resp.setCookie.value.header);
            && c.Some?
            && c.value.name == "auth_token" && c.value.value == ""
            && c.value.maxAge == Some(0)
            && c.value.httpOnly && c.value.path == Some("/") && c.value.sameSite == Some(Strict)
            && (c.value.secure <==> production)
    ensures ParseSetCookie(resp.setCookie.value.header) == Some(SessionCookie("", production).(maxAge := Some(0)))
  {
    LogoutHeaderParses(production);
    Response(200, Message(LogoutSuccessful), Some(Literal(LogoutHeader(production))))
  }
}
