/** End-to-end traces of the server handlers on one account, from registration to logout.
    The clock is in milliseconds. */
module Scenarios {
  import opened Common
  import opened Tokens
  import opened AuthController

  const Secrets := SecretConfig("access-key", Some("refresh-key"))
  const AnnEmail := "ann@example.com"
  const AnnPassword := "Str0ng!pass"

  /** Register, try to log in before verifying, then verify: the account exists from the
      start, the login is turned away until the address is verified, and the link works.
      The store it ends with holds exactly `Ann()` under id 0, the next id being 1. */
  method RegisterAndVerify()
    returns (registered: Outcome<string>, early: Outcome<LoginBody>, verified: Outcome<string>, isVerified: bool,
             store: map<UserId, User>, nextId: UserId)
    ensures registered == Reply(201, Registered)
    ensures early == Failure(HttpError(401, NotVerified))
    ensures verified == Reply(200, EmailVerified)
    ensures isVerified
    ensures store == map[0 := Ann()] && nextId == 1
  {
    var server := new AuthServer(ServerConfig(Secrets, true));
    registered := server.RegisterUser("Ann Lee", AnnEmail, AnnPassword, Some("buyer"), "verify-me", 86_400_000, true, 1_000);
    assert server.users[0].email == AnnEmail;
    early := server.LoginUser(AnnEmail, AnnPassword, 1_500);
    assert Matches(server.users[0], ByVerificationToken(Sha256("verify-me"), 2_000));
    verified := server.VerifyEmail("verify-me", 2_000);
    assert server.users.Keys == {0};
    isVerified := server.users[0].isEmailVerified;
    store, nextId := server.users, server.nextId;
  }

  /** The verified buyer of RegisterAndVerify, as the store then holds it (that method's
      last ensures). The scenarios below start from that store, placed directly into a
      fresh server, possibly with a refresh token already issued. */
  function Ann(): User
  {
    User("Ann Lee", AnnEmail, AnnPassword, Buyer, true, None, None, None, None, None, 1_000)
  }

  /** Log in and refresh: the refresh token from the login buys a new access token. */
  method LoginThenRefresh() returns (login: Outcome<LoginBody>, refreshed: Outcome<Jwt>)
    ensures login.Reply? && login.body.refreshToken == Signed(Token(0, "refresh-key", 3000, RefreshTtl))
    ensures login.body.accessToken == Signed(Token(0, "access-key", 3000, AccessTtl))
    ensures refreshed == Reply(200, Signed(Token(0, "access-key", 4000, AccessTtl)))
  {
    var server := new AuthServer(ServerConfig(Secrets, true));
    server.users, server.nextId := map[0 := Ann()], 1;
    assert server.FindOne(ByEmail(AnnEmail)) == Some(0);
    login := server.LoginUser(AnnEmail, AnnPassword, 3_000_000);
    refreshed := server.RefreshAccessToken(Some(login.body.refreshToken), 4_000_000);
  }

  /** A second login retires the refresh token of the first, though it has not expired. */
  method SecondLoginRetiresFirst() returns (second: Outcome<LoginBody>, stale: Outcome<Jwt>, current: Outcome<Jwt>)
    ensures second.Reply? && stale == Failure(HttpError(401, InvalidRefresh))
    ensures current == Reply(200, Signed(Token(0, "access-key", 5000, AccessTtl)))
  {
    var earlier := Signed(Token(0, "refresh-key", 3000, RefreshTtl));
    var server := new AuthServer(ServerConfig(Secrets, true));
    server.users, server.nextId := map[0 := Ann().(refreshToken := Some(earlier))], 1;
    assert server.FindOne(ByEmail(AnnEmail)) == Some(0);
    second := server.LoginUser(AnnEmail, AnnPassword, 4_000_000);
    stale := server.RefreshAccessToken(Some(earlier), 5_000_000);
    current := server.RefreshAccessToken(Some(second.body.refreshToken), 5_000_000);
  }

  /** After logout the refresh token that was current is refused. */
  method LogoutRetiresRefresh() returns (loggedOut: Outcome<LogoutBody>, afterLogout: Outcome<Jwt>)
    ensures loggedOut == Reply(200, LogoutBody(LoggedOut, ClearedCookie()))
    ensures afterLogout == Failure(HttpError(401, InvalidRefresh))
  {
    var current := Signed(Token(0, "refresh-key", 3000, RefreshTtl));
    var server := new AuthServer(ServerConfig(Secrets, true));
    server.users, server.nextId := map[0 := Ann().(refreshToken := Some(current))], 1;
    loggedOut := server.LogoutUser(Some(WithoutPassword(0, server.users[0])));
    afterLogout := server.RefreshAccessToken(Some(current), 4_000_000);
  }
}
