/** Access and refresh tokens (server/utils/generateTokens.js) over an abstract JWT.
    A token is transparent: it records its payload id, the key it was signed with,
    its issue time and its lifetime, both in whole seconds as jsonwebtoken keeps them. */
module Tokens {
  import opened Common

  type UserId = nat
  type Secret = string

  /** `jwt.sign({ id }, secret, { expiresIn })` issued at second `issuedAt`. */
  datatype Token = Token(id: UserId, secret: Secret, issuedAt: nat, ttl: nat)

  /** A string presented where a JWT is expected: either the serialization of some
      signed token (with whatever key signed it) or text that is no JWT at all. */
  datatype Jwt = Signed(token: Token) | Malformed(text: string)

  /** The process configuration: `JWT_SECRET` and the optional `JWT_REFRESH_SECRET`. */
  datatype SecretConfig = SecretConfig(jwtSecret: Secret, jwtRefreshSecret: Option<Secret>)

  /** `expiresIn: '15m'` and `expiresIn: '7d'`, in seconds. */
  const AccessTtl: nat := 15 * 60
  const RefreshTtl: nat := 7 * 24 * 60 * 60

  /** jsonwebtoken's clock: `Math.floor(Date.now() / 1000)`. */
  function Seconds(nowMs: nat): nat
  {
    nowMs / 1000
  }

  /** `process.env.JWT_REFRESH_SECRET || process.env.JWT_SECRET`: an unset or empty
      refresh secret falls back to the access-token secret. */
  function RefreshSecret(c: SecretConfig): (s: Secret)
    ensures s == c.jwtSecret || (c.jwtRefreshSecret == Some(s) && s != "")
    ensures Truthy(c.jwtRefreshSecret) ==> s == c.jwtRefreshSecret.value
  {
    if Truthy(c.jwtRefreshSecret) then c.jwtRefreshSecret.value else c.jwtSecret
  }

  /** `jwt.verify(token, secret)`: the decoded id when the token was signed with `secret`
      and has not expired (jsonwebtoken rejects once the clock reaches `exp = iat + ttl`);
      `None` stands for every error `jwt.verify` throws, among them an empty key
      ("secret or public key must be provided"). */
  function Verify(t: Jwt, secret: Secret, nowSec: nat): (r: Option<UserId>)
  {
    match t
    case Malformed(_) => None
    case Signed(tok) =>
      if secret != "" && tok.secret == secret && nowSec < tok.issuedAt + tok.ttl then Some(tok.id) else None
  }

  /** `jwt.sign({ id }, secret, { expiresIn })`; `None` is the exception it throws for an
      empty key ("secretOrPrivateKey must have a value"). */
  function Sign(id: UserId, secret: Secret, nowSec: nat, ttl: nat): Option<Jwt>
  {
    if secret == "" then None else Some(Signed(Token(id, secret, nowSec, ttl)))
  }

  function GenerateAccessToken(c: SecretConfig, id: UserId, nowSec: nat): Option<Jwt>
  {
    Sign(id, c.jwtSecret, nowSec, AccessTtl)
  }

  function GenerateRefreshToken(c: SecretConfig, id: UserId, nowSec: nat): Option<Jwt>
  {
    Sign(id, RefreshSecret(c), nowSec, RefreshTtl)
  }

  /** The try/catch around `jwt.verify` returns null on any failure, never throws. */
  function VerifyAccessToken(c: SecretConfig, t: Jwt, nowSec: nat): Option<UserId>
  {
    Verify(t, c.jwtSecret, nowSec)
  }

  function VerifyRefreshToken(c: SecretConfig, t: Jwt, nowSec: nat): Option<UserId>
  {
    Verify(t, RefreshSecret(c), nowSec)
  }

  /** A token verifies exactly when the key is non-empty and matches and the clock is
      before its expiry. */
  lemma VerifyAccepts(t: Jwt, secret: Secret, nowSec: nat)
    ensures Verify(t, secret, nowSec).Some? <==>
              secret != "" && t.Signed? && t.token.secret == secret && nowSec < t.token.issuedAt + t.token.ttl
    ensures Verify(t, secret, nowSec).Some? ==> Verify(t, secret, nowSec).value == t.token.id
  {
  }

  /** Round trip: an access token is issued exactly when `JWT_SECRET` is non-empty, and then
      verifies to its id for exactly 15 minutes. */
  lemma AccessTokenRoundTrip(c: SecretConfig, id: UserId, issued: nat, nowSec: nat)
    ensures GenerateAccessToken(c, id, issued).Some? <==> c.jwtSecret != ""
    ensures GenerateAccessToken(c, id, issued).Some? ==>
              VerifyAccessToken(c, GenerateAccessToken(c, id, issued).value, nowSec) ==
                (if nowSec < issued + 900 then Some(id) else None)
  {
  }

  /** Round trip: a refresh token is issued exactly when some key is set, and then verifies
      to its id for exactly 7 days, because generator and verifier make the same choice of key. */
  lemma RefreshTokenRoundTrip(c: SecretConfig, id: UserId, issued: nat, nowSec: nat)
    ensures GenerateRefreshToken(c, id, issued).Some? <==> c.jwtSecret != "" || Truthy(c.jwtRefreshSecret)
    ensures GenerateRefreshToken(c, id, issued).Some? ==>
              VerifyRefreshToken(c, GenerateRefreshToken(c, id, issued).value, nowSec) ==
                (if nowSec < issued + 604800 then Some(id) else None)
  {
  }

  /** With a distinct refresh secret the two kinds cannot stand in for each other. */
  lemma KindsSeparated(c: SecretConfig, id: UserId, issued: nat, nowSec: nat)
    requires RefreshSecret(c) != c.jwtSecret
    ensures GenerateRefreshToken(c, id, issued).Some? ==>
              VerifyAccessToken(c, GenerateRefreshToken(c, id, issued).value, nowSec) == None
    ensures GenerateAccessToken(c, id, issued).Some? ==>
              VerifyRefreshToken(c, GenerateAccessToken(c, id, issued).value, nowSec) == None
  {
  }

  /** Without a (non-empty) `JWT_REFRESH_SECRET` both kinds share one key, so an unexpired
      refresh token, when one is issued at all, is accepted by the access-token verifier,
      for up to 7 days. */
  lemma FallbackSharesKey(c: SecretConfig, id: UserId, issued: nat, nowSec: nat)
    requires !Truthy(c.jwtRefreshSecret)
    requires nowSec < issued + RefreshTtl
    ensures GenerateRefreshToken(c, id, issued).Some? <==> c.jwtSecret != ""
    ensures GenerateRefreshToken(c, id, issued).Some? ==>
              VerifyAccessToken(c, GenerateRefreshToken(c, id, issued).value, nowSec) == Some(id)
  {
  }
}
