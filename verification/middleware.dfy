/** The route guard (src/middleware.ts): a pure decision over the requested
    URL, the `auth_token` cookie and the abstract token verifier. */
module Middleware {
  import opened Base
  import opened Cookies
  import opened Jwt
  import opened Http

  /** The paths that need no session. */
  const PublicPaths: seq<string> := ["/login", "/register", "/api/auth/login", "/api/auth/register"]

  /** `prefixes.some((p) => path.startsWith(p))`. */
  function SomePrefix(path: string, prefixes: seq<string>): (b: bool)
    ensures b <==> exists i :: 0 <= i < |prefixes| && StartsWith(path, prefixes[i])
  {
    if prefixes == [] then false
    else if StartsWith(path, prefixes[0]) then true
    else
      var rest := SomePrefix(path, prefixes[1..]);
      assert forall i :: 1 <= i < |prefixes| ==> prefixes[i] == prefixes[1..][i - 1];
      rest
  }

  predicate IsPublic(path: string) {
    SomePrefix(path, PublicPaths)
  }

  /** A path is public exactly when it starts with one of the four fixed
      strings; the match is a prefix match, not an equality. */
  lemma PublicIff(path: string)
    ensures IsPublic(path) <==>
              || StartsWith(path, "/login") || StartsWith(path, "/register")
              || StartsWith(path, "/api/auth/login") || StartsWith(path, "/api/auth/register")
  {
    assert PublicPaths[0] == "/login" && PublicPaths[1] == "/register";
    assert PublicPaths[2] == "/api/auth/login" && PublicPaths[3] == "/api/auth/register";
  }

  /** Because the match is by prefix, "/loginx" is public; the root is not. */
  lemma PrefixMatchExamples()
    ensures IsPublic("/loginx")
    ensures IsPublic("/login")
    ensures !IsPublic("/")
  {
    PublicIff("/loginx");
    PublicIff("/login");
    PublicIff("/");
    assert "/loginx"[..6] == "/login";
  }

  /** `NextResponse.next()` or `NextResponse.redirect(url)`. */
  datatype Decision = Next | Redirect(location: Url)

  /** `middleware(req)`: `url` is `req.nextUrl.clone()`, the token is the
      `auth_token` cookie and `verify` stands for `jwtVerify` at time `now`. */
  function Guard(url: Url, cookies: map<string, string>, verify: Verifier, now: int): (d: Decision)
    ensures IsPublic(url.pathname) && Verifies(RawToken(cookies), verify, now) ==>
              d == Redirect(url.(pathname := "/"))
    ensures IsPublic(url.pathname) && !Verifies(RawToken(cookies), verify, now) ==> d == Next
    ensures !IsPublic(url.pathname) && Verifies(RawToken(cookies), verify, now) ==> d == Next
    ensures !IsPublic(url.pathname) && !Verifies(RawToken(cookies), verify, now) ==>
              d == Redirect(url.(pathname := "/login"))
  {
    var token := RawToken(cookies);
    if IsPublic(url.pathname) then
      if Present(token) then
        match verify(token.value, now)
        case Some(_) => Redirect(url.(pathname := "/"))
        case None => Next
      else Next
    else if !Present(token) then Redirect(url.(pathname := "/login"))
    else
      match verify(token.value, now)
      case Some(_) => Next
      case None => Redirect(url.(pathname := "/login"))
  }

  /** A redirect keeps the cloned URL and changes only its pathname, to the
      root or to the login page. */
  lemma RedirectOnlyChangesPath(url: Url, cookies: map<string, string>, verify: Verifier, now: int)
    ensures var d := Guard(url, cookies, verify, now);
            d.Redirect? ==>
              && d.location.(pathname := url.pathname) == url
              && (d.location.pathname == "/" || d.location.pathname == "/login")
  {
  }

  /** No redirect loop: a request redirected by the guard, repeated at the
      same time with the same cookies, is let through at its new location. */
  lemma NoRedirectLoop(url: Url, cookies: map<string, string>, verify: Verifier, now: int)
    ensures var d := Guard(url, cookies, verify, now);
            d.Redirect? ==> Guard(d.location, cookies, verify, now) == Next
  {
    PrefixMatchExamples();
  }
}
