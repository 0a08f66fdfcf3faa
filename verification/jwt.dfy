/** Session tokens. Signing (`jsonwebtoken`) and verification (`jose`) are
    foreign cryptography and stay abstract: a `Signer` and a `Verifier` are
    parameters, and `Honest` is the one assumption some lemmas make about them. */
module Jwt {
  import opened Base

  type Token = string

  /** The claims login signs: `{ userId, email, name }`. */
  datatype Claims = Claims(userId: string, email: string, name: Option<string>)

  /** `jwtVerify(token, secret)` at time `now` (seconds): the payload, or
      `None` where the library throws (bad signature, malformed, expired). */
  type Verifier = (Token, int) -> Option<Claims>

  /** `jwt.sign(claims, secret, { expiresIn })` at issue time `iat`
      (seconds): the token, or `None` where the library throws (for one, an
      unset secret). */
  type Signer = (Claims, string, int) -> Option<Token>

  /** The lifetime login asks for. */
  const ExpiresIn: string := "7d"

  /** Seven days in seconds, the lifetime `ExpiresIn` denotes. */
  const LifetimeSeconds: int := 7 * 24 * 60 * 60

  /** `if (token)`: the cookie is there and its value is not the empty
      string, which is falsy. */
  predicate Present(token: Option<Token>) {
    token.Some? && token.value != ""
  }

  /** `if (token)` followed by a successful `jwtVerify` at `now`. */
  predicate Verifies(token: Option<Token>, verify: Verifier, now: int) {
    Present(token) && verify(token.value, now).Some?
  }

  /** The two libraries agree: a token signed for `ExpiresIn` is non-empty and
      verifies to exactly its claims until `LifetimeSeconds` after issue, and
      not from then on (`jose` rejects once `exp <= now`). */
  ghost predicate Honest(sign: Signer, verify: Verifier) {
    forall c: Claims, iat: int, t: int ::
      sign(c, ExpiresIn, iat).Some? ==>
        && sign(c, ExpiresIn, iat).value != ""
        && verify(sign(c, ExpiresIn, iat).value, t) == (if t < iat + LifetimeSeconds then Some(c) else None)
  }
}
