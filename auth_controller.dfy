/** The account and session handlers of server/controllers/authController.js as
    transitions of an object holding the user collection. Each handler reads the
    records it needs, changes fields of the fetched record one by one and saves
    it back (a whole-record replacement in the map). */
module AuthController {
  import opened Common
  import opened Tokens

  datatype Role = Buyer | Seller

  function RoleName(r: Role): string
  {
    match r
    case Buyer => "buyer"
    case Seller => "seller"
  }

  /** `!role || !['buyer', 'seller'].includes(role)` rejects; anything else is one of the two roles. */
  function ParseRole(s: Option<string>): (r: Option<Role>)
    ensures r.Some? <==> (s == Some("buyer") || s == Some("seller"))
    ensures r.Some? ==> s == Some(RoleName(r.value))
  {
    if s == Some("buyer") then Some(Buyer)
    else if s == Some("seller") then Some(Seller)
    else None
  }

  /** `crypto.createHash('sha256').update(s).digest('hex')`, abstracted to an injective
      digest; nothing in the model looks inside it. Injectivity is a modelling assumption
      (collision resistance), not a property of SHA-256 proved here. */
  datatype Digest = Sha256Of(input: string)

  function Sha256(s: string): Digest
  {
    Sha256Of(s)
  }

  /** The modelling assumption above, stated: equal digests come from equal inputs. */
  lemma Sha256Injective(a: string, b: string)
    ensures Sha256(a) == Sha256(b) ==> a == b
  {
  }

  /** A stored user document. `password` stands for the credential the user model keeps
      (hashing on save is the model's business); `refreshToken` is the single session slot. */
  datatype User = User(
    name: string,
    email: string,
    password: string,
    role: Role,
    isEmailVerified: bool,
    emailVerificationToken: Option<Digest>,
    emailVerificationExpire: Option<nat>,
    resetPasswordToken: Option<Digest>,
    resetPasswordExpire: Option<nat>,
    refreshToken: Option<Jwt>,
    createdAt: nat)

  /** The `user` object of the login response (lines 152-159). */
  datatype PublicUser = PublicUser(id: UserId, name: string, email: string, role: Role,
                                   isEmailVerified: bool, createdAt: nat)

  /** A document read with `.select('-password')`: every stored field but the password. */
  datatype SafeUser = SafeUser(
    id: UserId,
    name: string,
    email: string,
    role: Role,
    isEmailVerified: bool,
    emailVerificationToken: Option<Digest>,
    emailVerificationExpire: Option<nat>,
    resetPasswordToken: Option<Digest>,
    resetPasswordExpire: Option<nat>,
    refreshToken: Option<Jwt>,
    createdAt: nat)

  function LoginView(id: UserId, u: User): PublicUser
  {
    PublicUser(id, u.name, u.email, u.role, u.isEmailVerified, u.createdAt)
  }

  function WithoutPassword(id: UserId, u: User): SafeUser
  {
    SafeUser(id, u.name, u.email, u.role, u.isEmailVerified, u.emailVerificationToken,
             u.emailVerificationExpire, u.resetPasswordToken, u.resetPasswordExpire,
             u.refreshToken, u.createdAt)
  }

  /** Neither projection carries the password: records that differ only in it look the same. */
  lemma ProjectionsOmitPassword(id: UserId, u: User, p: string)
    ensures LoginView(id, u.(password := p)) == LoginView(id, u)
    ensures WithoutPassword(id, u.(password := p)) == WithoutPassword(id, u)
  {
  }

  /** `res.cookie(name, value, options)`; `value == None` is the empty string. */
  datatype SetCookie = SetCookie(name: string, value: Option<Jwt>, httpOnly: bool, secure: bool,
                                 sameSiteStrict: bool, maxAgeMs: Option<nat>, expiresAtEpoch: bool)

  datatype LoginBody = LoginBody(accessToken: Jwt, refreshToken: Jwt, user: PublicUser, cookie: SetCookie)
  datatype LogoutBody = LogoutBody(message: string, cookie: SetCookie)

  datatype ServerConfig = ServerConfig(secrets: SecretConfig, production: bool)

  const UserExists := "User already exists"
  const InvalidRole := "Please select a valid role (buyer or seller)"
  const Registered := "User registered successfully. Please check your email to verify your account."
  const InvalidVerification := "Invalid or expired verification token"
  const EmailVerified := "Email verified successfully. You can now log in."
  const InvalidCredentials := "Invalid email or password"
  const NotVerified := "Please verify your email before logging in"
  const InvalidRefresh := "Invalid or expired refresh token"
  const LoggedOut := "Logged out successfully"
  const NoSuchUser := "User not found with this email"
  const ResetSent := "Password reset email sent"
  const InvalidReset := "Invalid or expired reset token"
  const PasswordChanged := "Password reset successful. Please login with your new password."
  /** `sendEmail` rejected; the handler set no status before passing the error on. */
  const MailFailed := Unexpected("email delivery failed")
  /** `req.user.id` on the `null` that `protect` lets through is a TypeError. */
  const NullUser := Unexpected("Cannot read properties of null (reading 'id')")
  /** What `jwt.sign` throws when `JWT_SECRET` is unset or empty. */
  const SignFailed := Unexpected("secretOrPrivateKey must have a value")

  /** The refresh-token cookie set at login (lines 141-146). */
  function RefreshCookie(t: Jwt, production: bool): SetCookie
  {
    SetCookie("refreshToken", Some(t), true, production, true, Some(7 * 24 * 60 * 60 * 1000), false)
  }

  /** The cookie that logout sends to erase it (lines 228-231). */
  function ClearedCookie(): SetCookie
  {
    SetCookie("refreshToken", None, true, false, false, None, true)
  }

  /** The cookie lives exactly as long as the refresh token it carries. */
  lemma CookieMatchesRefreshLifetime(t: Jwt, production: bool)
    ensures RefreshCookie(t, production).maxAgeMs == Some(RefreshTtl * 1000)
  {
  }

  /** The three `User.findOne` filters the controller uses. */
  datatype Query =
    | ByEmail(email: string)
    | ByVerificationToken(hash: Digest, now: nat)
    | ByResetToken(hash: Digest, now: nat)

  /** Equality on the filtered field; `{ $gt: Date.now() }` is a strict comparison
      that a missing expiry never satisfies. */
  predicate Matches(u: User, q: Query)
  {
    match q
    case ByEmail(e) => u.email == e
    case ByVerificationToken(h, now) =>
      u.emailVerificationToken == Some(h) && u.emailVerificationExpire.Some? && u.emailVerificationExpire.value > now
    case ByResetToken(h, now) =>
      u.resetPasswordToken == Some(h) && u.resetPasswordExpire.Some? && u.resetPasswordExpire.value > now
  }

  /** `findOne`: the first matching document in id (creation) order among ids in [from, bound). */
  function FindFrom(users: map<UserId, User>, q: Query, from: nat, bound: nat): (r: Option<UserId>)
    decreases bound - from
    ensures r.Some? ==> from <= r.value < bound && r.value in users && Matches(users[r.value], q)
    ensures r.Some? ==> forall j :: from <= j < r.value && j in users ==> !Matches(users[j], q)
    ensures r.None? ==> forall j :: from <= j < bound && j in users ==> !Matches(users[j], q)
  {
    if from >= bound then None
    else if from in users && Matches(users[from], q) then Some(from)
    else FindFrom(users, q, from + 1, bound)
  }

  /** Consuming the first matching document exposes the next one: once the record at
      `id` no longer matches, the same query finds the first match after `id`. */
  lemma {:induction false} FindAfterConsume(users: map<UserId, User>, q: Query, from: nat, bound: nat,
                                            id: UserId, u: User)
    requires FindFrom(users, q, from, bound) == Some(id)
    requires !Matches(u, q)
    ensures FindFrom(users[id := u], q, from, bound) == FindFrom(users, q, id + 1, bound)
    decreases bound - from
  {
    if from < id {
      FindAfterConsume(users, q, from + 1, bound, id, u);
    } else {
      FindIgnoresEarlier(users, q, id + 1, bound, id, u);
    }
  }

  /** The scan from `from` never looks at the records before it. */
  lemma {:induction false} FindIgnoresEarlier(users: map<UserId, User>, q: Query, from: nat, bound: nat,
                                              k: UserId, u: User)
    requires k < from
    ensures FindFrom(users[k := u], q, from, bound) == FindFrom(users, q, from, bound)
    decreases bound - from
  {
    if from < bound {
      FindIgnoresEarlier(users, q, from + 1, bound, k, u);
    }
  }

  ghost predicate EmailRegistered(users: map<UserId, User>, email: string)
  {
    exists id :: id in users && users[id].email == email
  }

  ghost predicate UniqueEmails(users: map<UserId, User>)
  {
    forall i, j :: i in users && j in users && users[i].email == users[j].email ==> i == j
  }

  /** The record `verifyEmail` saves (lines 88-91). */
  function MarkVerified(u: User): User
  {
    u.(isEmailVerified := true, emailVerificationToken := None, emailVerificationExpire := None)
  }

  /** The record `resetPassword` saves (lines 312-315). */
  function ReplacePassword(u: User, password: string): User
  {
    u.(password := password, resetPasswordToken := None, resetPasswordExpire := None)
  }

  /** `findByIdAndUpdate(id, { refreshToken: null })`: a no-op for an unknown id. */
  function ClearRefreshToken(users: map<UserId, User>, id: UserId): (r: map<UserId, User>)
    ensures r.Keys == users.Keys
    ensures id in r ==> r[id] == users[id].(refreshToken := None)
    ensures forall j :: j in users && j != id ==> r[j] == users[j]
  {
    if id in users then users[id := users[id].(refreshToken := None)] else users
  }

  /** When `refreshAccessToken` answers 200: a token was presented, it verifies with the
      refresh key, and it equals the refresh token stored for the user it names. */
  predicate RefreshAccepted(users: map<UserId, User>, presented: Option<Jwt>, s: SecretConfig, nowSec: nat)
  {
    presented.Some? &&
    VerifyRefreshToken(s, presented.value, nowSec).Some? &&
    var id := VerifyRefreshToken(s, presented.value, nowSec).value;
    id in users && users[id].refreshToken == presented
  }

  class AuthServer {
    var users: map<UserId, User>
    /** The id the datastore gives the next created document. */
    var nextId: UserId
    const config: ServerConfig

    ghost predicate Valid()
      reads this
    {
      (forall id :: id in users ==> id < nextId) && UniqueEmails(users)
    }

    constructor (config: ServerConfig)
      ensures Valid()
      ensures this.config == config && users == map[] && nextId == 0
    {
      this.config := config;
      users := map[];
      nextId := 0;
    }

    /** `User.findOne(q)` over the whole collection. */
    function FindOne(q: Query): (r: Option<UserId>)
      reads this
      requires Valid()
      ensures r.Some? ==> r.value in users && Matches(users[r.value], q)
      ensures r.None? <==> forall id :: id in users ==> !Matches(users[id], q)
    {
      FindFrom(users, q, 0, nextId)
    }

    /** registerUser (lines 10-64): duplicate check, then role check, then create, store the
        verification digest and expiry, then send the mail. The raw verification token and
        its expiry come from the user model; `mailDelivered` is the outcome of `sendEmail`,
        whose failure leaves the created user in place. */
    method RegisterUser(name: string, email: string, password: string, role: Option<string>,
                        verificationToken: string, verificationExpire: nat, mailDelivered: bool, now: nat)
      returns (r: Outcome<string>)
      requires Valid()
      modifies this
      ensures Valid()
      ensures EmailRegistered(old(users), email) ==>
                r == Failure(HttpError(400, UserExists)) && users == old(users) && nextId == old(nextId)
      ensures !EmailRegistered(old(users), email) && ParseRole(role).None? ==>
                r == Failure(HttpError(400, InvalidRole)) && users == old(users) && nextId == old(nextId)
      ensures !EmailRegistered(old(users), email) && ParseRole(role).Some? ==>
                old(nextId) !in old(users) && nextId == old(nextId) + 1 &&
                users == old(users)[old(nextId) := User(name, email, password, ParseRole(role).value, false,
                                                        Some(Sha256(verificationToken)), Some(verificationExpire),
                                                        None, None, None, now)] &&
                r == (if mailDelivered then Reply(201, Registered) else Failure(MailFailed))
    {
      var existing := FindOne(ByEmail(email));
      if existing.Some? {
        return Failure(HttpError(400, UserExists));
      }
      var parsed := ParseRole(role);
      if parsed.None? {
        return Failure(HttpError(400, InvalidRole));
      }
      // User.create
      var id := nextId;
      var user := User(name, email, password, parsed.value, false, None, None, None, None, None, now);
      users := users[id := user];
      nextId := nextId + 1;
      // user.getEmailVerificationToken(); user.save()
      user := user.(emailVerificationToken := Some(Sha256(verificationToken)),
                    emailVerificationExpire := Some(verificationExpire));
      users := users[id := user];
      if !mailDelivered {
        return Failure(MailFailed);
      }
      r := Reply(201, Registered);
    }

    /** verifyEmail (lines 69-100): succeeds exactly when some user holds the digest of the
        presented token with an expiry after `now`; that user is marked verified and both
        verification fields are cleared. */
    method VerifyEmail(token: string, now: nat) returns (r: Outcome<string>)
      requires Valid()
      modifies this
      ensures Valid() && nextId == old(nextId)
      ensures r.Reply? <==>
                exists id :: id in old(users) && Matches(old(users)[id], ByVerificationToken(Sha256(token), now))
      ensures r.Failure? ==> r == Failure(HttpError(400, InvalidVerification)) && users == old(users)
      ensures r.Reply? ==>
                r == Reply(200, EmailVerified) &&
                old(FindOne(ByVerificationToken(Sha256(token), now))).Some? &&
                var id := old(FindOne(ByVerificationToken(Sha256(token), now))).value;
                users == old(users)[id := MarkVerified(old(users)[id])]
    {
      var hashed := Sha256(token);
      var found := FindOne(ByVerificationToken(hashed, now));
      if found.None? {
        return Failure(HttpError(400, InvalidVerification));
      }
      var user := users[found.value];
      user := user.(isEmailVerified := true);
      user := user.(emailVerificationToken := None);
      user := user.(emailVerificationExpire := None);
      users := users[found.value := user];
      r := Reply(200, EmailVerified);
    }

    /** loginUser (lines 105-164). An unknown email and a wrong password give the same 401;
        an unverified user is turned away only after the password matched. Without a
        `JWT_SECRET` signing the access token throws before anything is saved. On success
        the new refresh token overwrites the single stored slot. */
    method LoginUser(email: string, password: string, now: nat) returns (r: Outcome<LoginBody>)
      requires Valid()
      modifies this
      ensures Valid() && nextId == old(nextId)
      ensures r == Failure(HttpError(401, InvalidCredentials)) <==>
                !exists id :: id in old(users) && old(users)[id].email == email && old(users)[id].password == password
      ensures r == Failure(HttpError(401, NotVerified)) <==>
                exists id :: id in old(users) && old(users)[id].email == email && old(users)[id].password == password &&
                             !old(users)[id].isEmailVerified
      ensures r == Failure(SignFailed) <==>
                config.secrets.jwtSecret == "" &&
                exists id :: id in old(users) && old(users)[id].email == email && old(users)[id].password == password &&
                             old(users)[id].isEmailVerified
      ensures r.Failure? ==> users == old(users)
      ensures r.Reply? <==>
                config.secrets.jwtSecret != "" &&
                exists id :: id in old(users) && old(users)[id].email == email && old(users)[id].password == password &&
                             old(users)[id].isEmailVerified
      ensures r.Reply? ==>
                old(FindOne(ByEmail(email))).Some? &&
                var id := old(FindOne(ByEmail(email))).value;
                var access := GenerateAccessToken(config.secrets, id, Seconds(now));
                var refresh := GenerateRefreshToken(config.secrets, id, Seconds(now));
                access.Some? && refresh.Some? &&
                users == old(users)[id := old(users)[id].(refreshToken := refresh)] &&
                r == Reply(200, LoginBody(access.value, refresh.value,
                                          LoginView(id, old(users)[id]), RefreshCookie(refresh.value, config.production)))
    {
      var found := FindOne(ByEmail(email));
      if found.None? {
        return Failure(HttpError(401, InvalidCredentials));
      }
      var id := found.value;
      var user := users[id];
      if user.password != password {
        return Failure(HttpError(401, InvalidCredentials));
      }
      if !user.isEmailVerified {
        return Failure(HttpError(401, NotVerified));
      }
      var accessToken := GenerateAccessToken(config.secrets, id, Seconds(now));
      if accessToken.None? {
        return Failure(SignFailed);
      }
      // a non-empty JWT_SECRET leaves the refresh key non-empty too
      var refreshToken := GenerateRefreshToken(config.secrets, id, Seconds(now)).value;
      user := user.(refreshToken := Some(refreshToken));
      users := users[id := user];
      r := Reply(200, LoginBody(accessToken.value, refreshToken, LoginView(id, user),
                                RefreshCookie(refreshToken, config.production)));
    }

    /** getMe (lines 169-179), behind `protect`: `reqUser` is what `protect` put in `req.user`.
        The record is read again without its password; a vanished user gives `data: null`. */
    method GetMe(reqUser: Option<SafeUser>) returns (r: Outcome<Option<SafeUser>>)
      ensures reqUser.None? ==> r == Failure(NullUser)
      ensures reqUser.Some? && reqUser.value.id !in users ==> r == Reply(200, None)
      ensures reqUser.Some? && reqUser.value.id in users ==>
                r.Reply? && r.status == 200 && r.body.Some? &&
                r.body.value.id == reqUser.value.id && r.body.value == WithoutPassword(reqUser.value.id, users[reqUser.value.id])
    {
      if reqUser.None? {
        return Failure(NullUser);
      }
      var id := reqUser.value.id;
      if id in users {
        r := Reply(200, Some(WithoutPassword(id, users[id])));
      } else {
        r := Reply(200, None);
      }
    }

    /** refreshAccessToken (lines 184-217). Every failure, the missing token and a throwing
        `jwt.sign` included, leaves through the catch as the same 401. The stored refresh
        token is not rotated. */
    method RefreshAccessToken(presented: Option<Jwt>, now: nat) returns (r: Outcome<Jwt>)
      ensures r.Reply? <==> RefreshAccepted(users, presented, config.secrets, Seconds(now)) && config.secrets.jwtSecret != ""
      ensures r.Reply? ==>
                r.status == 200 &&
                GenerateAccessToken(config.secrets, presented.value.token.id, Seconds(now)) == Some(r.body)
      ensures r.Failure? ==> r == Failure(HttpError(401, InvalidRefresh))
    {
      var thrown := false;
      var issued := Malformed("");
      if presented.None? {
        thrown := true;  // 'Refresh token is required'
      } else {
        var decoded := VerifyRefreshToken(config.secrets, presented.value, Seconds(now));
        if decoded.None? {
          thrown := true;  // jwt.verify throws
        } else if decoded.value !in users || users[decoded.value].refreshToken != presented {
          thrown := true;  // 'Invalid refresh token'
        } else {
          var signed := GenerateAccessToken(config.secrets, decoded.value, Seconds(now));
          if signed.None? {
            thrown := true;  // jwt.sign throws
          } else {
            issued := signed.value;
          }
        }
      }
      if thrown {
        r := Failure(HttpError(401, InvalidRefresh));
      } else {
        r := Reply(200, issued);
      }
    }

    /** logoutUser (lines 222-240), behind `protect`: empties the stored refresh token and
        expires the cookie. */
    method LogoutUser(reqUser: Option<SafeUser>) returns (r: Outcome<LogoutBody>)
      requires Valid()
      modifies this
      ensures Valid() && nextId == old(nextId)
      ensures reqUser.None? ==> r == Failure(NullUser) && users == old(users)
      ensures reqUser.Some? ==>
                r == Reply(200, LogoutBody(LoggedOut, ClearedCookie())) &&
                users == ClearRefreshToken(old(users), reqUser.value.id)
    {
      if reqUser.None? {
        return Failure(NullUser);
      }
      var id := reqUser.value.id;
      if id in users {
        users := users[id := users[id].(refreshToken := None)];
      }
      r := Reply(200, LogoutBody(LoggedOut, ClearedCookie()));
    }

    /** forgotPassword (lines 245-286): 404 for an unknown email; otherwise stores the digest
        of a fresh reset token and its expiry (both from the user model), then sends the mail. */
    method ForgotPassword(email: string, resetToken: string, resetExpire: nat, mailDelivered: bool)
      returns (r: Outcome<string>)
      requires Valid()
      modifies this
      ensures Valid() && nextId == old(nextId)
      ensures !EmailRegistered(old(users), email) ==>
                r == Failure(HttpError(404, NoSuchUser)) && users == old(users)
      ensures EmailRegistered(old(users), email) ==>
                old(FindOne(ByEmail(email))).Some? &&
                var id := old(FindOne(ByEmail(email))).value;
                users == old(users)[id := old(users)[id].(resetPasswordToken := Some(Sha256(resetToken)),
                                                          resetPasswordExpire := Some(resetExpire))] &&
                r == (if mailDelivered then Reply(200, ResetSent) else Failure(MailFailed))
    {
      var found := FindOne(ByEmail(email));
      if found.None? {
        return Failure(HttpError(404, NoSuchUser));
      }
      var user := users[found.value];
      user := user.(resetPasswordToken := Some(Sha256(resetToken)), resetPasswordExpire := Some(resetExpire));
      users := users[found.value := user];
      if !mailDelivered {
        return Failure(MailFailed);
      }
      r := Reply(200, ResetSent);
    }

    /** resetPassword (lines 291-324): the reset-field counterpart of verifyEmail; replaces
        the password and clears both reset fields. */
    method ResetPassword(token: string, password: string, now: nat) returns (r: Outcome<string>)
      requires Valid()
      modifies this
      ensures Valid() && nextId == old(nextId)
      ensures r.Reply? <==>
                exists id :: id in old(users) && Matches(old(users)[id], ByResetToken(Sha256(token), now))
      ensures r.Failure? ==> r == Failure(HttpError(400, InvalidReset)) && users == old(users)
      ensures r.Reply? ==>
                r == Reply(200, PasswordChanged) &&
                old(FindOne(ByResetToken(Sha256(token), now))).Some? &&
                var id := old(FindOne(ByResetToken(Sha256(token), now))).value;
                users == old(users)[id := ReplacePassword(old(users)[id], password)]
    {
      var hashed := Sha256(token);
      var found := FindOne(ByResetToken(hashed, now));
      if found.None? {
        return Failure(HttpError(400, InvalidReset));
      }
      var user := users[found.value];
      user := user.(password := password);
      user := user.(resetPasswordToken := None);
      user := user.(resetPasswordExpire := None);
      users := users[found.value := user];
      r := Reply(200, PasswordChanged);
    }
  }

  /** A consumed verification token cannot be replayed: the query for the same digest, at
      any later time, finds the next holder after the consumed user, and nothing when the
      consumed user was the only holder. */
  lemma VerificationTokenSingleUse(users: map<UserId, User>, bound: nat, token: string, now: nat, later: nat)
    requires FindFrom(users, ByVerificationToken(Sha256(token), now), 0, bound).Some?
    requires later >= now
    ensures var id := FindFrom(users, ByVerificationToken(Sha256(token), now), 0, bound).value;
            var after := users[id := MarkVerified(users[id])];
            FindFrom(after, ByVerificationToken(Sha256(token), later), 0, bound) != Some(id) &&
            ((forall j :: j in users && j != id ==> users[j].emailVerificationToken != Some(Sha256(token))) ==>
               FindFrom(after, ByVerificationToken(Sha256(token), later), 0, bound) == None)
  {
  }

  /** The same for password-reset tokens. */
  lemma ResetTokenSingleUse(users: map<UserId, User>, bound: nat, token: string, password: string,
                            now: nat, later: nat)
    requires FindFrom(users, ByResetToken(Sha256(token), now), 0, bound).Some?
    ensures var id := FindFrom(users, ByResetToken(Sha256(token), now), 0, bound).value;
            var after := users[id := ReplacePassword(users[id], password)];
            FindFrom(after, ByResetToken(Sha256(token), later), 0, bound) != Some(id) &&
            ((forall j :: j in users && j != id ==> users[j].resetPasswordToken != Some(Sha256(token))) ==>
               FindFrom(after, ByResetToken(Sha256(token), later), 0, bound) == None)
  {
  }

  /** A fresh login's refresh token is accepted by refresh for exactly its 7-day lifetime. */
  lemma FreshRefreshTokenAccepted(users: map<UserId, User>, id: UserId, s: SecretConfig, issued: nat, nowSec: nat)
    requires id in users
    ensures var t := GenerateRefreshToken(s, id, issued);
            t.Some? ==>
              (RefreshAccepted(users[id := users[id].(refreshToken := t)], t, s, nowSec) <==>
                 nowSec < issued + RefreshTtl)
  {
  }

  /** Single slot: after a later login wrote another refresh token for the same user, a
      previously issued one fails the equality check of refresh. */
  lemma LoginSupersedesRefreshToken(users: map<UserId, User>, id: UserId, stale: Jwt, newer: Jwt,
                                   s: SecretConfig, nowSec: nat)
    requires id in users && stale != newer
    requires VerifyRefreshToken(s, stale, nowSec) == Some(id)
    ensures !RefreshAccepted(users[id := users[id].(refreshToken := Some(newer))], Some(stale), s, nowSec)
  {
  }

  /** After logout no refresh token naming that user is accepted; logging out twice leaves
      the same collection as logging out once. */
  lemma LogoutEndsRefresh(users: map<UserId, User>, id: UserId, presented: Option<Jwt>, s: SecretConfig, nowSec: nat)
    requires presented.Some? && VerifyRefreshToken(s, presented.value, nowSec) == Some(id)
    ensures !RefreshAccepted(ClearRefreshToken(users, id), presented, s, nowSec)
    ensures ClearRefreshToken(ClearRefreshToken(users, id), id) == ClearRefreshToken(users, id)
  {
  }

  /** A password reset leaves the session slot alone: refresh accepts exactly what it
      accepted before. */
  lemma ResetKeepsSession(users: map<UserId, User>, id: UserId, password: string, presented: Option<Jwt>,
                          s: SecretConfig, nowSec: nat)
    requires id in users
    ensures RefreshAccepted(users[id := ReplacePassword(users[id], password)], presented, s, nowSec) ==
              RefreshAccepted(users, presented, s, nowSec)
  {
  }
}
