/** The session cookie: the attributes login sets, the literal header logout
    sends, how a browser reads such a header (section 5.2 of RFC 6265) and how
    it stores and replays cookies (section 5.3, reduced to what this
    application needs). */
module Cookies {
  import opened Base

  /** The one cookie name login sets, logout clears and every reader looks up. */
  const AuthCookieName: string := "auth_token"

  /** `60 * 60 * 24 * 7`: the session cookie's `Max-Age`, seven days in seconds. */
  const SessionMaxAge: int := 60 * 60 * 24 * 7

  /** `SameSite=None` is called `NoRestriction` here. */
  datatype SameSite = Strict | Lax | NoRestriction

  /** A cookie as a browser understands it. `path` is `None` when the
      default path applies; `maxAge` is `None` for a session cookie. */
  datatype CookieAttrs = CookieAttrs(
    name: string,
    value: string,
    httpOnly: bool,
    secure: bool,
    sameSite: Option<SameSite>,
    path: Option<string>,
    maxAge: Option<int>)

  /** The options login passes to `serialize("auth_token", token, ...)`. */
  function SessionCookie(token: string, production: bool): CookieAttrs {
    CookieAttrs(AuthCookieName, token, true, production, Some(Strict), Some("/"), Some(SessionMaxAge))
  }

  /** The header logout sends, written in two pieces, followed by `Secure;`
      in production only. */
  function LogoutHeader(production: bool): string {
    "auth_token=; HttpOnly; Path=/; " + "Max-Age=0; SameSite=Strict; " + (if production then "Secure;" else "")
  }

  /** `req.cookies.get("auth_token")?.value`. */
  function RawToken(cookies: map<string, string>): (t: Option<string>)
    ensures t.Some? <==> AuthCookieName in cookies
    ensures t.Some? ==> t.value == cookies[AuthCookieName]
  {
    if AuthCookieName in cookies then Some(cookies[AuthCookieName]) else None
  }

  // ---------------------------------------------------------------------
  // Reading a Set-Cookie header (RFC 6265 section 5.2)
  // ---------------------------------------------------------------------

  /** WSP: space or horizontal tab. */
  predicate IsWsp(c: char) {
    c == ' ' || c == '\t'
  }

  /** Splits at the first '=': the part before, and the part after if there is one. */
  function SplitPair(s: string): (string, Option<string>) {
    match IndexOf(s, '=')
    case None => (s, None)
    case Some(k) => (s[..k], Some(s[k + 1..]))
  }

  predicate IsDigit(c: char) {
    '0' <= c <= '9'
  }

  /** The value of a non-empty string of decimal digits. */
  function DigitsValue(s: string): nat
    requires forall i :: 0 <= i < |s| ==> IsDigit(s[i])
  {
    if s == [] then 0
    else
      assert IsDigit(s[|s| - 1]);
      10 * DigitsValue(s[..|s| - 1]) + (s[|s| - 1] as int - '0' as int)
  }

  predicate AllDigits(s: string) {
    s != [] && forall i :: 0 <= i < |s| ==> IsDigit(s[i])
  }

  /** Section 5.2.2: the value must be digits, optionally after one '-';
      anything else makes the attribute ignored. */
  function ParseDeltaSeconds(v: string): (r: Option<int>)
    ensures r.Some? && r.value > 0 ==> AllDigits(v)
    ensures AllDigits(v) ==> r == Some(DigitsValue(v))
  {
    if AllDigits(v) then Some(DigitsValue(v))
    else if |v| > 1 && v[0] == '-' && AllDigits(v[1..]) then
      var magnitude: int := DigitsValue(v[1..]);
      Some(-magnitude)
    else None
  }

  /** The trimmed attribute name of a cookie-av. */
  function AttrName(av: string): string {
    Trim(SplitPair(av).0, IsWsp)
  }

  /** The trimmed attribute value of a cookie-av; empty when it has no '='. */
  function AttrValue(av: string): string {
    var v := SplitPair(av).1;
    if v.Some? then Trim(v.value, IsWsp) else ""
  }

  /** Sections 5.2.2 to 5.2.6 of RFC 6265 for one cookie-av, plus the
      `SameSite` attribute, which comes from the RFC 6265bis draft; names are
      matched in the case the application writes them, and unknown
      attributes are ignored. */
  function ApplyAttribute(c: CookieAttrs, av: string): CookieAttrs {
    ApplyNamed(c, AttrName(av), AttrValue(av))
  }

  function ApplyNamed(c: CookieAttrs, name: string, value: string): CookieAttrs {
    if name == "Max-Age" then
      match ParseDeltaSeconds(value)
      case Some(d) => c.(maxAge := Some(d))
      case None => c
    else if name == "Secure" then c.(secure := true)
    else if name == "HttpOnly" then c.(httpOnly := true)
    else if name == "Path" then
      c.(path := if value != "" && value[0] == '/' then Some(value) else None)
    else if name == "SameSite" then
      if value == "Strict" then c.(sameSite := Some(Strict))
      else if value == "Lax" then c.(sameSite := Some(Lax))
      else if value == "None" then c.(sameSite := Some(NoRestriction))
      else c
    else c
  }

  /** Attributes are applied left to right, so the last occurrence wins. */
  function ApplyAttributes(c: CookieAttrs, avs: seq<string>): CookieAttrs
    decreases |avs|
  {
    if avs == [] then c else ApplyAttributes(ApplyAttribute(c, avs[0]), avs[1..])
  }

  /** The cookie a browser takes from a `Set-Cookie` header, or `None` when it
      ignores the header (no '=' in the name-value pair, or an empty name). */
  function ParseSetCookie(header: string): Option<CookieAttrs> {
    var parts := SplitOn(header, ';');
    var (rawName, rawValue) := SplitPair(parts[0]);
    if rawValue.None? then None
    else
      var name := Trim(rawName, IsWsp);
      if name == "" then None
      else
        var bare := CookieAttrs(name, Trim(rawValue.value, IsWsp), false, false, None, None, None);
        Some(ApplyAttributes(bare, parts[1..]))
  }

  /** One step of reading a header: the text up to the first separator is the
      next part. */
  lemma SplitStep(a: string, b: string, sep: char)
    requires sep !in a
    ensures SplitOn(a + [sep] + b, sep) == [a] + SplitOn(b, sep)
  {
    var s := a + [sep] + b;
    assert s[|a|] == sep;
    var k := IndexOf(s, sep);
    assert k == Some(|a|) by {
      if k.value < |a| {
        assert false;
      } else if k.value > |a| {
        assert false;
      }
    }
    assert s[..|a|] == a;
    assert s[|a| + 1..] == b;
  }

  lemma ConsFive<T>(a1: T, a2: T, a3: T, a4: T, a5: T, t: seq<T>)
    ensures [a1] + ([a2] + ([a3] + ([a4] + ([a5] + t)))) == [a1, a2, a3, a4, a5] + t
  {
  }

  /** Five separator-free parts, each followed by ';', then the rest. */
  lemma SplitFive(a1: string, a2: string, a3: string, a4: string, a5: string, rest: string)
    requires ';' !in a1 && ';' !in a2 && ';' !in a3 && ';' !in a4 && ';' !in a5
    ensures SplitOn(a1 + ";" + (a2 + ";" + (a3 + ";" + (a4 + ";" + (a5 + ";" + rest)))), ';')
            == [a1, a2, a3, a4, a5] + SplitOn(rest, ';')
  {
    var r5 := a5 + ";" + rest;
    var r4 := a4 + ";" + r5;
    var r3 := a3 + ";" + r4;
    var r2 := a2 + ";" + r3;
    var r1 := a1 + ";" + r2;
    var t := SplitOn(rest, ';');
    SplitStep(a5, rest, ';');
    var p5 := [a5] + t;
    SplitStep(a4, r5, ';');
    var p4 := [a4] + p5;
    SplitStep(a3, r4, ';');
    var p3 := [a3] + p4;
    SplitStep(a2, r3, ';');
    var p2 := [a2] + p3;
    SplitStep(a1, r2, ';');
    assert SplitOn(r1, ';') == [a1] + p2;
    ConsFive(a1, a2, a3, a4, a5, t);
  }

  /** The logout header is five attributes, each closed by ';', then the
      environment-dependent rest. */
  lemma LogoutHeaderShape(production: bool)
    ensures LogoutHeader(production) ==
              "auth_token=" + ";" + (" HttpOnly" + ";" + (" Path=/" + ";" + (" Max-Age=0" + ";" +
              (" SameSite=Strict" + ";" + LogoutTail(production)))))
  {
  }

  /** What follows the last fixed attribute of the logout header. */
  function LogoutTail(production: bool): string {
    " " + (if production then "Secure;" else "")
  }

  lemma LogoutTailParts(production: bool)
    ensures SplitOn(LogoutTail(production), ';') == if production then [" Secure", ""] else [" "]
  {
    if production {
      assert LogoutTail(production) == " Secure" + ";" + "";
      SplitStep(" Secure", "", ';');
    } else {
      assert LogoutTail(production) == " ";
      assert IndexOf(" ", ';') == None;
    }
  }

  /** The parts of the logout header between its semicolons. */
  lemma LogoutHeaderParts(production: bool)
    ensures SplitOn(LogoutHeader(production), ';') ==
              ["auth_token=", " HttpOnly", " Path=/", " Max-Age=0", " SameSite=Strict"]
              + (if production then [" Secure", ""] else [" "])
  {
    var tail := LogoutTail(production);
    LogoutHeaderShape(production);
    SplitFive("auth_token=", " HttpOnly", " Path=/", " Max-Age=0", " SameSite=Strict", tail);
    LogoutTailParts(production);
  }

  /** Trimming strips one leading space and leaves the word itself alone. */
  lemma TrimWord(x: string)
    requires |x| > 0 && !IsWsp(x[0]) && !IsWsp(x[|x| - 1])
    ensures Trim(" " + x, IsWsp) == x
    ensures Trim(x, IsWsp) == x
  {
    assert (" " + x)[1..] == x;
    assert TrimStart(x, IsWsp) == x;
  }

  /** A flag attribute written as one space and a word. */
  lemma FlagAttr(c: CookieAttrs, w: string)
    requires |w| > 0 && '=' !in w && !IsWsp(w[0]) && !IsWsp(w[|w| - 1])
    ensures AttrName(" " + w) == w && AttrValue(" " + w) == ""
    ensures ApplyAttribute(c, " " + w) == ApplyNamed(c, w, "")
  {
    assert IndexOf(" " + w, '=') == None;
    TrimWord(w);
  }

  /** A valued attribute written as one space, a word, '=' and a value. */
  lemma ValuedAttr(c: CookieAttrs, n: string, v: string)
    requires |n| > 0 && '=' !in n && !IsWsp(n[0]) && !IsWsp(n[|n| - 1])
    requires |v| > 0 && !IsWsp(v[0]) && !IsWsp(v[|v| - 1])
    ensures AttrName(" " + n + "=" + v) == n && AttrValue(" " + n + "=" + v) == v
    ensures ApplyAttribute(c, " " + n + "=" + v) == ApplyNamed(c, n, v)
  {
    var av := " " + n + "=" + v;
    assert av[1 + |n|] == '=';
    assert '=' !in av[..1 + |n|] by {
      assert av[..1 + |n|] == " " + n;
    }
    assert IndexOf(av, '=') == Some(1 + |n|) by {
      var k := IndexOf(av, '=');
      if k.value < 1 + |n| {
        assert false;
      } else if k.value > 1 + |n| {
        assert false;
      }
    }
    assert av[..1 + |n|] == " " + n;
    assert av[2 + |n|..] == v;
    TrimWord(n);
    TrimWord(v);
  }

  lemma ReadHttpOnly(c: CookieAttrs)
    ensures ApplyAttribute(c, " HttpOnly") == c.(httpOnly := true)
  {
    FlagAttr(c, "HttpOnly");
  }

  lemma ReadSecure(c: CookieAttrs)
    ensures ApplyAttribute(c, " Secure") == c.(secure := true)
  {
    FlagAttr(c, "Secure");
  }

  lemma ReadPath(c: CookieAttrs)
    ensures ApplyAttribute(c, " Path=/") == c.(path := Some("/"))
  {
    assert " Path=/" == " " + "Path" + "=" + "/";
    ValuedAttr(c, "Path", "/");
  }

  lemma ReadMaxAgeZero(c: CookieAttrs)
    ensures ApplyAttribute(c, " Max-Age=0") == c.(maxAge := Some(0))
  {
    assert " Max-Age=0" == " " + "Max-Age" + "=" + "0";
    ValuedAttr(c, "Max-Age", "0");
    DeltaSecondsZero();
  }

  lemma DeltaSecondsZero()
    ensures ParseDeltaSeconds("0") == Some(0)
  {
  }

  lemma NamedSameSiteStrict(c: CookieAttrs)
    ensures ApplyNamed(c, "SameSite", "Strict") == c.(sameSite := Some(Strict))
  {
  }

  lemma ReadSameSiteStrict(c: CookieAttrs)
    ensures ApplyAttribute(c, " SameSite=Strict") == c.(sameSite := Some(Strict))
  {
    assert " SameSite=Strict" == " " + "SameSite" + "=" + "Strict";
    ValuedAttr(c, "SameSite", "Strict");
    NamedSameSiteStrict(c);
  }

  lemma ReadBlank(c: CookieAttrs, av: string)
    requires av == "" || av == " "
    ensures ApplyAttribute(c, av) == c
  {
    assert IndexOf(av, '=') == None;
    assert Trim(av, IsWsp) == "" by {
      TrimEmptyIffBlank(av, IsWsp);
    }
  }

  /** A name-value pair with an empty value. */
  lemma EmptyValuePair(n: string)
    requires |n| > 0 && '=' !in n && !IsWsp(n[0]) && !IsWsp(n[|n| - 1])
    ensures SplitPair(n + "=") == (n, Some(""))
    ensures Trim(n, IsWsp) == n && Trim("", IsWsp) == ""
  {
    var s := n + "=";
    assert s[|n|] == '=';
    assert s[..|n|] == n;
    assert IndexOf(s, '=') == Some(|n|) by {
      var k := IndexOf(s, '=');
      if k.value < |n| {
        assert false;
      } else if k.value > |n| {
        assert false;
      }
    }
    assert s[|n| + 1..] == "";
    TrimWord(n);
  }

  lemma ReadNameValue()
    ensures SplitPair("auth_token=") == ("auth_token", Some(""))
    ensures Trim("auth_token", IsWsp) == "auth_token" && Trim("", IsWsp) == ""
  {
    EmptyValuePair("auth_token");
    assert "auth_token=" == "auth_token" + "=";
  }

  lemma ApplyCons(c: CookieAttrs, a: string, t: seq<string>)
    ensures ApplyAttributes(c, [a] + t) == ApplyAttributes(ApplyAttribute(c, a), t)
  {
    assert ([a] + t)[1..] == t;
  }

  lemma ApplyFour(c: CookieAttrs, a1: string, a2: string, a3: string, a4: string, t: seq<string>)
    ensures ApplyAttributes(c, [a1, a2, a3, a4] + t) ==
            ApplyAttributes(ApplyAttribute(ApplyAttribute(ApplyAttribute(ApplyAttribute(c, a1), a2), a3), a4), t)
  {
    assert [a1, a2, a3, a4] + t == [a1] + ([a2] + ([a3] + ([a4] + t)));
    var c1 := ApplyAttribute(c, a1);
    var c2 := ApplyAttribute(c1, a2);
    var c3 := ApplyAttribute(c2, a3);
    ApplyCons(c, a1, [a2] + ([a3] + ([a4] + t)));
    ApplyCons(c1, a2, [a3] + ([a4] + t));
    ApplyCons(c2, a3, [a4] + t);
    ApplyCons(c3, a4, t);
  }

  /** Reading a header whose first part is a well-formed name-value pair. */
  lemma ParseFromParts(header: string, nv: string, avs: seq<string>, n: string, v: string)
    requires SplitOn(header, ';') == [nv] + avs
    requires SplitPair(nv) == (n, Some(v)) && Trim(n, IsWsp) == n && n != ""
    ensures ParseSetCookie(header) ==
              Some(ApplyAttributes(CookieAttrs(n, Trim(v, IsWsp), false, false, None, None, None), avs))
  {
    assert SplitOn(header, ';')[1..] == avs;
  }

  /** The four fixed attributes of the logout header, whatever follows them. */
  lemma LogoutFixedAttributes(c: CookieAttrs, tail: seq<string>)
    ensures ApplyAttributes(c, [" HttpOnly", " Path=/", " Max-Age=0", " SameSite=Strict"] + tail)
            == ApplyAttributes(c.(httpOnly := true, path := Some("/"), maxAge := Some(0), sameSite := Some(Strict)), tail)
  {
    ApplyFour(c, " HttpOnly", " Path=/", " Max-Age=0", " SameSite=Strict", tail);
    ReadHttpOnly(c);
    var c1 := c.(httpOnly := true);
    ReadPath(c1);
    var c2 := c1.(path := Some("/"));
    ReadMaxAgeZero(c2);
    var c3 := c2.(maxAge := Some(0));
    ReadSameSiteStrict(c3);
  }

  /** The environment-dependent end of the logout header. */
  lemma LogoutTailAttributes(c: CookieAttrs, production: bool)
    ensures ApplyAttributes(c, if production then [" Secure", ""] else [" "])
            == c.(secure := c.secure || production)
  {
    if production {
      ReadSecure(c);
      var c5 := c.(secure := true);
      ReadBlank(c5, "");
      ApplyCons(c, " Secure", [""]);
      ApplyCons(c5, "", []);
    } else {
      ReadBlank(c, " ");
      ApplyCons(c, " ", []);
    }
  }

  /** A browser reads the logout header as the session cookie itself with an
      empty value and `Max-Age=0`: same name, path, `HttpOnly`, `SameSite` and,
      in the same environment, `Secure`. */
  lemma LogoutHeaderParses(production: bool)
    ensures ParseSetCookie(LogoutHeader(production)) ==
              Some(SessionCookie("", production).(maxAge := Some(0)))
  {
    var tail := if production then [" Secure", ""] else [" "];
    var avs := [" HttpOnly", " Path=/", " Max-Age=0", " SameSite=Strict"] + tail;
    LogoutHeaderParts(production);
    assert ["auth_token=", " HttpOnly", " Path=/", " Max-Age=0", " SameSite=Strict"] + tail == ["auth_token="] + avs;
    ReadNameValue();
    ParseFromParts(LogoutHeader(production), "auth_token=", avs, "auth_token", "");
    var c0 := CookieAttrs(AuthCookieName, "", false, false, None, None, None);
    LogoutFixedAttributes(c0, tail);
    LogoutTailAttributes(c0.(httpOnly := true, path := Some("/"), maxAge := Some(0), sameSite := Some(Strict)), production);
  }

  // ---------------------------------------------------------------------
  // A browser's cookie store (RFC 6265 section 5.3)
  // ---------------------------------------------------------------------

  /** A stored cookie; `expiresAt` is `None` for a session cookie. */
  datatype StoredCookie = StoredCookie(value: string, expiresAt: Option<int>)

  /** Cookies by name. Every cookie of this application has `Path=/` and no
      `Domain`, so the name alone identifies it. */
  type Jar = map<string, StoredCookie>

  /** Storing a received cookie at time `now`: a positive `Max-Age` expires
      the cookie that many seconds later; zero or less means the earliest
      representable time, so the new cookie and any old one of that name are
      evicted at once; without `Max-Age` it lasts for the session. */
  function Receive(jar: Jar, c: CookieAttrs, now: int): (j: Jar)
    ensures forall n :: n != c.name ==> (n in j <==> n in jar)
    ensures forall n :: n != c.name && n in jar ==> j[n] == jar[n]
    ensures c.maxAge.Some? && c.maxAge.value <= 0 ==> c.name !in j
    ensures c.maxAge.Some? && c.maxAge.value > 0 ==>
              c.name in j && j[c.name] == StoredCookie(c.value, Some(now + c.maxAge.value))
    ensures c.maxAge.None? ==> c.name in j && j[c.name] == StoredCookie(c.value, None)
  {
    match c.maxAge
    case Some(d) =>
      if d <= 0 then jar - {c.name} else jar[c.name := StoredCookie(c.value, Some(now + d))]
    case None => jar[c.name := StoredCookie(c.value, None)]
  }

  predicate Live(s: StoredCookie, t: int) {
    s.expiresAt.None? || t < s.expiresAt.value
  }

  /** The cookies a request made at time `t` carries, as `req.cookies` sees them. */
  function CookiesAt(jar: Jar, t: int): (m: map<string, string>)
    ensures forall n :: n in m <==> n in jar && Live(jar[n], t)
    ensures forall n :: n in m ==> m[n] == jar[n].value
  {
    map n | n in jar && Live(jar[n], t) :: jar[n].value
  }
}
