# Prize-bond checker: authentication boundary and card statistics

A Dafny model of the server-side core of a Next.js and MongoDB application
that tracks prize bonds grouped into cards. The model covers these parts:

- the route guard (`src/middleware.ts`), which decides from the request path
  and the `auth_token` cookie whether to let a request through or redirect
  it to `/` or `/login`;
- `getUserFromCookie` (`src/lib/auth.ts`), which turns the cookie into the
  caller's identity;
- the login, register and logout routes, including the order in which they
  check things, the error each check produces, the session cookie login
  sets and the literal `Set-Cookie` header logout sends;
- the card routes (`src/app/api/card/route.ts`), which list the caller's
  cards with held and won bond counts and create empty cards, and the card
  and bond documents they work on (`src/models/card.ts`);
- the `ApiError` record (`src/lib/ApiError.ts`) and the JSON a client
  receives for it.

Everything is a pure function over immutable values:

- Time is a parameter `now`, in seconds.
- The user collection is a map from email to user. A route that writes
  returns the new map.
- JWT signing and verification, bcrypt hashing and comparison, and the
  request schemas stay abstract. They are function parameters: `Signer`,
  `Verifier`, `Hasher`, `Comparer` and `Schema`.
- The one assumption made about the JWT libraries is `Jwt.Honest`. It says a
  token signed with expiry `"7d"` verifies to exactly its claims for
  604800 seconds after issue, and not after that.
- A route's `try` block is a `Result`, and its `catch` is a function on that
  `Result` (`Http.CatchAuth`, `CardRoute.CatchCard`).
- Browser behaviour is modelled only where the cross-route properties need
  it. `Cookies.ParseSetCookie` follows section 5.2 of RFC 6265, with the
  `SameSite` attribute taken from the RFC 6265bis draft, and
  `Cookies.Receive` and `Cookies.CookiesAt` follow section 5.3 of RFC 6265.

Files, one module each:

| file | module | models |
|---|---|---|
| base.dfy | Base | Option, prefix test, trimming, splitting on a separator |
| js_values.dfy | JsValues | JSON values, truthiness, property access, `String.prototype.trim` |
| api_error.dfy | ApiErrors | `ApiError` and its JSON serialisation |
| http.dfy | Http | requests, responses, thrown exceptions, the auth routes' `catch` |
| validation.dfy | Validation | `safeParse` results and the "Validation failed" error |
| jwt.dfy | Jwt | claims, abstract sign/verify, the 7-day lifetime |
| cookies.dfy | Cookies | the session cookie, the logout header, a Set-Cookie reader, a cookie jar |
| users.dfy | Users | user records and the user store |
| middleware.dfy | Middleware | the route guard |
| session.dfy | Session | `getUserFromCookie` |
| login.dfy, register.dfy, logout.dfy | Login, Register, Logout | the three authentication routes |
| card_model.dfy | CardModel | bonds, cards, status enum, document validation and defaults |
| card_route.dfy | CardRoute | `GET` and `POST /api/card` |
| flows.dfy | Flows | properties across routes |

Two behaviours of the code are worth stating directly:

- The card handlers' `catch` turns every error, their own 401 and 400
  included, into a thrown `ApiError(500, "Internal Server Error")`. The
  error leaves the handler, which `Outcome.Thrown` models, so the card
  routes never answer 401 or 400.
- The JSON body of an error response has no `message` (see Findings).

## Model

| member | source | states |
|---|---|---|
| Middleware.SomePrefix | src/middleware.ts:22 | `some(startsWith)` is true exactly when some listed string is a prefix of the path |
| Middleware.PublicIff | src/middleware.ts:8-22 | a path is public iff it starts with "/login", "/register", "/api/auth/login" or "/api/auth/register" |
| Middleware.PrefixMatchExamples | src/middleware.ts:8-22 | the match is by prefix: "/loginx" and "/login" are public, "/" is not |
| Middleware.Guard | src/middleware.ts:15-50 | the decision table: public and verifying ⇒ redirect to "/"; public otherwise ⇒ next; protected and verifying ⇒ next; protected with no, empty or failing token ⇒ redirect to "/login" |
| Middleware.RedirectOnlyChangesPath | src/middleware.ts:16-48 | a redirect keeps the cloned URL except for its pathname, which is "/" or "/login" |
| Middleware.NoRedirectLoop | src/middleware.ts:22-49 | a redirected request, repeated with the same cookies at the same time, is let through |
| Session.GetUserFromCookie | src/lib/auth.ts:12-32 | a user exactly when the cookie is present, non-empty and verifies; its id, email and name are the payload's userId, email and name |
| Session.NoCookieNoUser | src/lib/auth.ts:15-19 | without an `auth_token` cookie the result is null, whatever the verifier |
| Cookies.RawToken | src/lib/auth.ts:15 | the value of the `auth_token` cookie, present exactly when the cookie is |
| ApiErrors.NewApiError | src/lib/ApiError.ts:7-18 | status, message and errors stored exactly as passed; `data` null and `success` false |
| ApiErrors.DefaultArguments | src/lib/ApiError.ts:9-10 | omitted arguments give "Something went wrong" and an empty error list |
| ApiErrors.ToJsonAsWritten | src/app/api/auth/login/route.ts:61-67 | the JSON the catch sends has exactly the keys statusCode, errors, data and success, and no `message` |
| ApiErrors.AsWrittenFields | src/app/api/auth/login/route.ts:61-67 | a client reads back the status, the error list, null data and `success: false` |
| ApiErrors.AsWrittenLosesMessage | src/app/api/auth/login/route.ts:61-67 | as written, a client reading `message` from an error response reads `undefined` |
| ApiErrors.ToJson | src/lib/ApiError.ts:13 | the intended envelope carries a `message` key |
| ApiErrors.ToJsonCarriesMessage | src/lib/ApiError.ts:13 | with the fix the client reads back the handler's message, and every other field is unchanged |
| Http.ReadJson | src/app/api/auth/login/route.ts:15 | `req.json()` yields the body exactly when it parses, and otherwise throws an error that is not an ApiError |
| Http.CatchAuth | src/app/api/auth/login/route.ts:61-68 | an ApiError is answered with its own status; any other error becomes 500 "Internal server error" |
| Validation.FlatMessages | src/app/api/auth/login/route.ts:19-20 | the flattened list holds every message of every field and nothing else; one field gives exactly its messages |
| Validation.FlatMessagesAppend | src/app/api/auth/login/route.ts:19-20 | flattening keeps field order: a concatenation of fields gives the two message lists one after the other |
| Validation.FlatMessagesKeepsDuplicates | src/app/api/auth/login/route.ts:19-20 | a message reported by two fields appears twice |
| Validation.Validate | src/app/api/auth/login/route.ts:17-22 | parsed data passes on; a rejected body throws 400 "Validation failed" with the flattened messages |
| Users.FindByEmail | src/app/api/auth/login/route.ts:28 | a user exactly when some stored user has that email, and it is that user |
| Login.CredentialsError | src/app/api/auth/login/route.ts:29-36 | the single 400 "Invalid email or password" error with no details |
| Login.ClaimsOf | src/app/api/auth/login/route.ts:39-43 | the token claims are exactly the user's id, email and name |
| Login.Post | src/app/api/auth/login/route.ts:13-69 | unparsable body ⇒ 500; rejected schema ⇒ 400 with messages; unknown email or wrong password ⇒ the same 400; found with a matching password but the token cannot be signed ⇒ 500; 200 iff found, password matches and signing succeeds, then exactly `{userId}`, "Login successful" and the session cookie; a cookie iff 200 |
| Login.ValidationIgnoresStore | src/app/api/auth/login/route.ts:17-22 | a rejected body gets the same 400 whatever the store holds |
| Login.UnknownEmailLooksLikeWrongPassword | src/app/api/auth/login/route.ts:28-36 | an unknown email and a known email with a wrong password get identical responses |
| Login.SessionCookieShape | src/app/api/auth/login/route.ts:46-52 | the cookie is `auth_token`, HttpOnly, SameSite=Strict, Path=/, Secure iff production, Max-Age 604800, equal to the token lifetime |
| Register.Post | src/app/api/auth/register/route.ts:9-49 | failures leave the store unchanged; rejected schema ⇒ 400; known email ⇒ 400 "Email already registered"; 201 iff the body validates and the email is new, then exactly one user is added with the hashed password (cost 10); no cookie ever; the store stays keyed by email |
| Register.RegisterTwice | src/app/api/auth/register/route.ts:24-31 | registering the same email twice: the second attempt is refused and the store grows by one in total |
| Cookies.LogoutHeaderParts | src/app/api/auth/logout/route.ts:5-7 | the header's `;`-separated parts, with `Secure` only in production |
| Cookies.LogoutHeaderParses | src/app/api/auth/logout/route.ts:5-7 | a browser reads the header as the session cookie with an empty value and Max-Age 0 |
| Logout.Post | src/app/api/auth/logout/route.ts:3-16 | any caller gets 200 "Logout successful" and a header read as `auth_token` emptied, Max-Age 0, HttpOnly, Path=/, SameSite=Strict, Secure iff production |
| CardModel.ParseStatus | src/models/card.ts:21 | a status string is accepted iff it is "hold", "win" or "sell" |
| CardModel.StatusRoundTrip | src/models/card.ts:5 | each of the three statuses survives a round trip through its name |
| CardModel.StatusNameRoundTrip | src/models/card.ts:21 | an accepted status string is the name of the status it parses to |
| CardModel.CastBond | src/models/card.ts:18-22 | a bond is accepted iff number (non-empty), date and a valid status are all present, and keeps them |
| CardModel.CastBonds | src/models/card.ts:33 | the bond list is accepted iff every bond is, and keeps their number and order |
| CardModel.CreateCard | src/models/card.ts:24-36 | a card is created iff the name is non-empty, the owner present and the bonds valid; totalWin defaults to 0 and prizeBonds to empty; supplied bonds are kept as validated |
| CardModel.DuplicateNumbersAccepted | src/models/card.ts:18-33 | a card holding the same bond number twice is accepted |
| CardRoute.FilterStatus | src/app/api/card/route.ts:18-23 | the filter keeps every bond of the given status, only those, and no more than the input |
| CardRoute.FilterStatusAppend | src/app/api/card/route.ts:18-23 | filtering distributes over concatenation, so it keeps order |
| CardRoute.StatusPartition | src/app/api/card/route.ts:17-31 | the hold, win and sell counts add up to the number of bonds |
| CardRoute.Summarise | src/app/api/card/route.ts:25-31 | id, name and bonds pass through; totalBond counts held bonds and totalWin won bonds, the stored totalWin is not read, and totalBond + totalWin ≤ number of bonds |
| CardRoute.HoldToWin | src/app/api/card/route.ts:18-30 | turning one held bond into a won one moves one from totalBond to totalWin |
| CardRoute.OwnedBy | src/app/api/card/route.ts:15 | only the caller's cards, and all of them |
| CardRoute.OwnedByAppend | src/app/api/card/route.ts:15 | the owner filter distributes over concatenation, so it keeps collection order |
| CardRoute.Summaries | src/app/api/card/route.ts:17-32 | one summary per card, same length and order |
| CardRoute.RequireUser | src/app/api/card/route.ts:13 | no user ⇒ an error is thrown; otherwise the user passes on |
| CardRoute.CatchCard | src/app/api/card/route.ts:37-40 | every thrown error becomes a thrown 500 "Internal Server Error" |
| CardRoute.Get | src/app/api/card/route.ts:8-41 | a thrown 500 iff the session does not verify; otherwise 200 with one summary per owned card in order, and only owned cards |
| CardRoute.NameCheck | src/app/api/card/route.ts:53 | the falsy test, then the `trim()` call that needs a string, together let through exactly the strings that are not all whitespace |
| CardRoute.Post | src/app/api/card/route.ts:43-72 | a card is created iff the session verifies, the body is JSON and `name` is a non-blank string; then the untrimmed name, the caller as owner, no bonds, totalWin 0 and 201; otherwise a thrown 500 and nothing created |
| CardRoute.NoUnauthorizedStatus | src/app/api/card/route.ts:8-72 | without a session both handlers throw the same 500, never a 401 |
| CardRoute.BlankNameRejected | src/app/api/card/route.ts:53-55 | a whitespace-only name creates no card |
| JsValues.GetProperty | src/app/api/card/route.ts:51 | destructuring throws on null and undefined; on an object it reads the own field or undefined; any other value gives undefined for the keys the handlers read |
| JsValues.JsTrimEmptyIffBlank | src/app/api/card/route.ts:53 | `trim()` gives "" exactly for whitespace-only strings |
| Flows.GuardAgreesWithSession | src/middleware.ts:37-49 | on protected pages the guard lets a request through iff `getUserFromCookie` finds a user |
| Flows.LoginStartsSession | src/app/api/auth/login/route.ts:39-52 | after login the session is recognised as that user and protected pages are served until 604800 s later; from then on cookie and session are gone and the guard redirects to "/login" |
| Flows.LogoutEndsSession | src/app/api/auth/logout/route.ts:5-10 | after the logout header is stored, there is no session and protected pages redirect to "/login" |
| Flows.RegisterThenLogin | src/app/api/auth/register/route.ts:29-31 | a freshly registered user can log in with the same credentials, and the session is for the new id |

## Left out

- `src/lib/db.ts` and `connectDB` are left out: they are connection plumbing. Database failures (connection errors, a failing insert) are not inputs to the model.
- bcrypt and JWT are abstract function parameters (`Hasher`, `Comparer`, `Signer`, `Verifier`). They are foreign cryptography. Signature checks, malformed tokens and clock skew are all folded into `Verifier` returning `None`.
- `loginSchema` and `registerSchema` (`lib/validator.ts`) are not part of this model. Each is an abstract `Schema`.
- `models/user.ts` is not part of this model. A user is an id, a name, an email and a stored password, and the store is keyed by email. Any unique index on email is not modelled.
- `lib/ApiResponse.ts` is not part of this model. `ApiResponse` records its three constructor arguments.
- The `cookie` library's serialisation is left out. Login's cookie stays the attribute record the code passes to `serialize`, while logout's header is modelled character for character.
- The Set-Cookie reader is a subset of RFC 6265: attribute names match case-sensitively, and `Domain`, `Expires` and the default-path rule are left out. The application's headers need none of them.
- The cookie jar has a single path and host. It assumes the browser stores login's cookie at the signing time `now`.
- The jar's whole-second expiry matches `jose`'s `exp <= now` check only to the second. Millisecond truncation of `iat` is left out.
- `config.matcher` (src/middleware.ts:52-61) is left out: it is framework routing. The guard is modelled for every path it is invoked on.
- Mongoose type casting is left out: ObjectId casting of `userId`, Date casting and number-to-string casts. Dates are integers and `userId` is a string. The `timestamps` fields are also left out.
- CardRoute.StatusPartition: the model assumes every stored bond has one of the three enum statuses. The bond update route (`src/app/api/card/[cardId]/bonds/[bondId]/route.ts`) is outside this model and writes `prizeBonds.$.status` without running validators, so a stored bond may carry another string. `GET` counts such a bond in neither total, and then hold + win + sell falls short of the number of bonds; in the code the bound `totalBond + totalWin <= |prizeBonds|` still holds for such a card, because the two filters are disjoint.
- The `_id` mongoose gives each `prizeBonds` subdocument is left out. `Bond` has only number, purchase date and status, so `GET` passes each bond through without its id. No modelled property depends on bond ids.
- Concurrency is left out. Two simultaneous registrations of the same email can both pass `findOne` before either insert.
- The stack parameter and `Error.captureStackTrace` of `ApiError` (src/lib/ApiError.ts:11, 19-23) are left out: they are runtime reflection.
- NaN and the JSON number edge cases are left out. JSON cannot produce NaN.
- Logout's `catch` returning "Logout failed" is left out. Nothing in its `try` block can throw.
- The UI pages and components, the per-card routes (`/api/card/[cardId]`) and the bond routes are left out. They are outside the modelled core.

## Findings

| source | as written | input that shows it | evidently intended | confidence | as-written member | corrected member |
|---|---|---|---|---|---|---|
| src/app/api/auth/login/route.ts:61-67 | `NextResponse.json(err)` serialises the `ApiError` with `JSON.stringify`. That keeps only enumerable own properties, and the `message` that `super(message)` sets on an `Error` is not enumerable, so the body has no `message`. The same pattern is in the register route. | registering an email that is already taken: the body is `{statusCode: 400, errors: [], data: null, success: false}`, so the register page shows its fallback "Registration failed." instead of "Email already registered" | the error envelope carries the handler's message, as the pages' `result.message` reads assume | high; not executed | ApiErrors.ToJsonAsWritten | ApiErrors.ToJson |
