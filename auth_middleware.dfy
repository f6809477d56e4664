/** The route gates of server/middleware/authMiddleware.js: `protect` finds an access token
    (cookie first, then an Authorization header starting with "Bearer") and verifies it;
    `authorize` checks the authenticated user's role against a list. */
module AuthMiddleware {
  import opened Common
  import opened Tokens
  import opened AuthController

  /** What a gate does with the request: call `next()` (with `req.user` set) or throw. */
  datatype Gate = Next(user: Option<SafeUser>) | Rejected(error: HttpError)

  const NoToken := "Not authorized, no token"
  const TokenFailed := "Not authorized, token failed"

  /** `String.prototype.split(' ')`: the pieces between single spaces, empty ones included. */
  function Split(s: string): (r: seq<string>)
    ensures |r| >= 1
  {
    if s == [] then [""]
    else
      var rest := Split(s[1..]);
      if s[0] == ' ' then [""] + rest else [[s[0]] + rest[0]] + rest[1..]
  }

  /** `split(' ')[1]`, `undefined` when there is no second piece. */
  function SecondWord(s: string): Option<string>
  {
    var parts := Split(s);
    if |parts| > 1 then Some(parts[1]) else None
  }

  /** The header fallback applies: `req.headers.authorization && ….startsWith('Bearer')`. */
  predicate BearerHeader(authorization: Option<string>)
  {
    Truthy(authorization) && StartsWith(authorization.value, "Bearer")
  }

  lemma {:induction false} SplitWithoutSpace(t: string)
    requires ' ' !in t
    ensures Split(t) == [t]
  {
    if t != [] {
      assert t[0] in t;
      SplitWithoutSpace(t[1..]);
      assert [t[0]] + t[1..] == t;
    }
  }

  lemma {:induction false} SplitFirstWord(w: string, rest: string)
    requires ' ' !in w
    ensures Split(w + " " + rest) == [w] + Split(rest)
  {
    if w == [] {
      assert w + " " + rest == [' '] + rest;
      assert ([' '] + rest)[1..] == rest;
    } else {
      assert (w + " " + rest)[1..] == w[1..] + " " + rest;
      SplitFirstWord(w[1..], rest);
      assert [w[0]] + w[1..] == w;
    }
  }

  /** A header `Bearer <t>` for a token text without spaces takes the fallback and yields `t`. */
  lemma BearerCarriesToken(t: string)
    requires ' ' !in t
    ensures BearerHeader(Some("Bearer " + t))
    ensures SecondWord("Bearer " + t) == Some(t)
  {
    assert ("Bearer " + t)[..6] == "Bearer";
    assert "Bearer " + t == "Bearer" + " " + t;
    SplitFirstWord("Bearer", t);
    SplitWithoutSpace(t);
  }

  /** A header that starts with "Bearer" but has no space after it yields no token. */
  lemma BearerWithoutSpace(h: string)
    requires ' ' !in h
    ensures SecondWord(h) == None
  {
    SplitWithoutSpace(h);
  }

  /** What `protect` does once `token` is assigned (lines 22-33): `jwt.verify` with
      `JWT_SECRET`, then `User.findById(decoded.id).select('-password')`. An undefined or
      empty token makes `jwt.verify` throw ("jwt must be provided") before anything is
      decoded. A verified token whose user is gone still reaches `next()`. */
  function Admit(users: map<UserId, User>, token: Option<string>, decode: string -> Jwt,
                 s: SecretConfig, nowSec: nat): (g: Gate)
    ensures g.Next? <==> Truthy(token) && VerifyAccessToken(s, decode(token.value), nowSec).Some?
    ensures g.Rejected? ==> g.error == HttpError(401, TokenFailed)
    ensures g.Next? ==>
              var id := VerifyAccessToken(s, decode(token.value), nowSec).value;
              g.user == (if id in users then Some(WithoutPassword(id, users[id])) else None)
  {
    if !Truthy(token) then Rejected(HttpError(401, TokenFailed))
    else
      match VerifyAccessToken(s, decode(token.value), nowSec)
      case None => Rejected(HttpError(401, TokenFailed))
      case Some(id) => Next(if id in users then Some(WithoutPassword(id, users[id])) else None)
  }

  /** protect (lines 6-34). `decode` maps a token string to the JWT it serializes. */
  method Protect(server: AuthServer, cookieToken: Option<string>, authorization: Option<string>,
                 decode: string -> Jwt, now: nat) returns (r: Gate)
    ensures Truthy(cookieToken) ==>
              r == Admit(server.users, cookieToken, decode, server.config.secrets, Seconds(now))
    ensures !Truthy(cookieToken) && BearerHeader(authorization) ==>
              r == Admit(server.users, SecondWord(authorization.value), decode, server.config.secrets, Seconds(now))
    ensures !Truthy(cookieToken) && !BearerHeader(authorization) ==>
              r == Rejected(HttpError(401, NoToken))
  {
    var token := cookieToken;
    if !Truthy(token) {
      if Truthy(authorization) && StartsWith(authorization.value, "Bearer") {
        token := SecondWord(authorization.value);
      } else {
        return Rejected(HttpError(401, NoToken));
      }
    }
    var decoded := if Truthy(token) then VerifyAccessToken(server.config.secrets, decode(token.value), Seconds(now))
                   else None;
    if decoded.None? {
      return Rejected(HttpError(401, TokenFailed));
    }
    var id := decoded.value;
    var user := if id in server.users then Some(WithoutPassword(id, server.users[id])) else None;
    r := Next(user);
  }

  /** authorize(...roles) (lines 37-45). On the `null` user that `protect` lets through,
      `req.user.role` is a TypeError. */
  function Authorize(roles: seq<string>, user: Option<SafeUser>): (g: Gate)
    ensures user.Some? ==> (g.Next? <==> RoleName(user.value.role) in roles)
    ensures g.Next? ==> g.user == user
    ensures user.Some? && g.Rejected? ==>
              g.error == HttpError(403, "User role " + RoleName(user.value.role) + " is not authorized to access this route")
    ensures user.None? ==> g == Rejected(Unexpected("Cannot read properties of null (reading 'role')"))
  {
    if user.None? then Rejected(Unexpected("Cannot read properties of null (reading 'role')"))
    else if RoleName(user.value.role) in roles then Next(user)
    else Rejected(HttpError(403, "User role " + RoleName(user.value.role) + " is not authorized to access this route"))
  }

  /** Widening the role list never locks out a user it admitted. */
  lemma AuthorizeMonotone(roles: seq<string>, wider: seq<string>, user: Option<SafeUser>)
    requires forall x :: x in roles ==> x in wider
    ensures Authorize(roles, user).Next? ==> Authorize(wider, user).Next?
  {
  }
}
