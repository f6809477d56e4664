/** The session side of src/context/AuthContext.tsx: the bootstrap `checkAuth`, `login` and
    `logout`. Each network call is an input (`Reply`), the calls made are recorded in
    `calls`, and `navigate(...)` is recorded as the provider's `location`. */
module AuthContext {
  import opened Common
  import opened ClientStorage
  import AppRoutes
  import AxiosInterceptor

  /** The `User` interface of the client (lines 6-13). */
  datatype ClientUser = ClientUser(id: string, name: string, email: string, role: string, isEmailVerified: bool)

  /** The outcome of one awaited request: its `response.data` payload, or a thrown error. */
  datatype Reply<+T> = Answered(data: T) | Failed

  /** `{ accessToken, refreshToken, user }` of a successful login response. */
  datatype LoginData = LoginData(accessToken: string, refreshToken: string, user: ClientUser)

  /** A request sent, with the default `Authorization` header it carried where it matters. */
  datatype ApiCall =
    | GetMe(authorization: Option<string>)
    | PostRefresh(refreshToken: string)
    | PostLogin(email: string, password: string)
    | PostLogout

  function Bearer(token: string): string
  {
    "Bearer " + token
  }

  class AuthProvider {
    var user: Option<ClientUser>
    var loading: bool
    var calls: seq<ApiCall>
    var location: Option<string>
    const browser: Browser

    /** Mounting: `useState(null)` and `useState(true)`. */
    constructor (browser: Browser)
      ensures this.browser == browser
      ensures user == None && loading && calls == [] && location == None
    {
      this.browser := browser;
      user := None;
      loading := true;
      calls := [];
      location := None;
    }

    /** `isAuthenticated: !!user` (line 210). */
    predicate IsAuthenticated()
      reads this
    {
      user.Some?
    }

    /** What the route guards read from this context. */
    function Session(): (a: AppRoutes.Auth)
      reads this
      ensures a.loading == loading
      ensures a.role.Some? <==> IsAuthenticated()
      ensures IsAuthenticated() ==> a.role == Some(user.value.role)
    {
      AppRoutes.Auth(loading, if user.Some? then Some(user.value.role) else None)
    }

    /** A signed-in user always has an access token stored and sent as the default header. */
    ghost predicate SignedInWithToken()
      reads this, browser
    {
      user.Some? ==> browser.accessToken.Some? && browser.authorization == Some(Bearer(browser.accessToken.value))
    }

    /** checkAuth (lines 38-92), run once on mount. `me` is the outcome of `/auth/me` with the
        stored access token, `refreshed` that of `/auth/refresh-token` (its new access token),
        `meAfterRefresh` that of `/auth/me` with the new token. */
    method CheckAuth(me: Reply<ClientUser>, refreshed: Reply<string>, meAfterRefresh: Reply<ClientUser>)
      requires user == None
      modifies this, browser
      ensures !loading && location == old(location)
      ensures SignedInWithToken()
      ensures !Truthy(old(browser.accessToken)) && !Truthy(old(browser.refreshToken)) ==>
                calls == old(calls) && user == None && unchanged(browser)
      ensures Truthy(old(browser.accessToken)) && me.Answered? ==>
                calls == old(calls) + [GetMe(Some(Bearer(old(browser.accessToken).value)))] &&
                user == Some(me.data) &&
                browser.accessToken == old(browser.accessToken) && browser.refreshToken == old(browser.refreshToken) &&
                browser.authorization == Some(Bearer(old(browser.accessToken).value))
      ensures Truthy(old(browser.accessToken)) && me.Failed? && !Truthy(old(browser.refreshToken)) ==>
                calls == old(calls) + [GetMe(Some(Bearer(old(browser.accessToken).value)))] &&
                user == None &&
                browser.accessToken == old(browser.accessToken) && browser.refreshToken == old(browser.refreshToken) &&
                browser.authorization == Some(Bearer(old(browser.accessToken).value))
      ensures (!Truthy(old(browser.accessToken)) || me.Failed?) && Truthy(old(browser.refreshToken)) ==>
                calls == old(calls) +
                         (if Truthy(old(browser.accessToken)) then [GetMe(Some(Bearer(old(browser.accessToken).value)))] else []) +
                         [PostRefresh(old(browser.refreshToken).value)] +
                         (if refreshed.Answered? then [GetMe(Some(Bearer(refreshed.data)))] else [])
      ensures (!Truthy(old(browser.accessToken)) || me.Failed?) && Truthy(old(browser.refreshToken)) &&
              refreshed.Answered? && meAfterRefresh.Answered? ==>
                user == Some(meAfterRefresh.data) &&
                browser.accessToken == Some(refreshed.data) && browser.refreshToken == old(browser.refreshToken) &&
                browser.authorization == Some(Bearer(refreshed.data))
      ensures (!Truthy(old(browser.accessToken)) || me.Failed?) && Truthy(old(browser.refreshToken)) &&
              (refreshed.Failed? || meAfterRefresh.Failed?) ==>
                user == None &&
                browser.accessToken == None && browser.refreshToken == None && browser.authorization == None
    {
      var accessToken := browser.accessToken;
      var refreshToken := browser.refreshToken;
      if !Truthy(accessToken) && !Truthy(refreshToken) {
        loading := false;
        return;
      }
      if Truthy(accessToken) {
        browser.authorization := Some(Bearer(accessToken.value));
        calls := calls + [GetMe(browser.authorization)];
        if me.Answered? {
          user := Some(me.data);
          loading := false;
          return;
        }
      }
      if Truthy(refreshToken) {
        calls := calls + [PostRefresh(refreshToken.value)];
        if refreshed.Answered? {
          browser.accessToken := Some(refreshed.data);
          browser.authorization := Some(Bearer(refreshed.data));
          calls := calls + [GetMe(browser.authorization)];
        }
        if refreshed.Answered? && meAfterRefresh.Answered? {
          user := Some(meAfterRefresh.data);
        } else {
          browser.accessToken := None;
          browser.refreshToken := None;
          browser.authorization := None;
        }
      }
      loading := false;
    }

    /** login (lines 117-147). `thrown` says the error was re-thrown to the page. A signed-in
        buyer or seller is sent to the one dashboard the route table then shows them. */
    method Login(email: string, password: string, reply: Reply<LoginData>) returns (thrown: bool)
      modifies this, browser
      ensures calls == old(calls) + [PostLogin(email, password)]
      ensures thrown <==> reply.Failed?
      ensures loading == old(loading)
      ensures reply.Failed? ==> user == old(user) && location == old(location) && unchanged(browser)
      ensures reply.Answered? ==>
                browser.accessToken == Some(reply.data.accessToken) &&
                browser.refreshToken == Some(reply.data.refreshToken) &&
                browser.authorization == Some(Bearer(reply.data.accessToken)) &&
                user == Some(reply.data.user) && SignedInWithToken()
      ensures reply.Answered? ==>
                location == (if reply.data.user.role == "buyer" then Some(AppRoutes.BuyerHome)
                             else if reply.data.user.role == "seller" then Some(AppRoutes.SellerHome)
                             else old(location))
      ensures reply.Answered? && !loading && (reply.data.user.role == "buyer" || reply.data.user.role == "seller") ==>
                AppRoutes.Resolve(location.value, Session()) ==
                  AppRoutes.Render(if reply.data.user.role == "buyer" then AppRoutes.BuyerDashboard
                                   else AppRoutes.SellerDashboard)
    {
      calls := calls + [PostLogin(email, password)];
      if reply.Failed? {
        return true;
      }
      var data := reply.data;
      browser.accessToken := Some(data.accessToken);
      browser.refreshToken := Some(data.refreshToken);
      browser.authorization := Some(Bearer(data.accessToken));
      user := Some(data.user);
      if data.user.role == "buyer" {
        location := Some(AppRoutes.BuyerHome);
      } else if data.user.role == "seller" {
        location := Some(AppRoutes.SellerHome);
      }
      if data.user.role == "buyer" || data.user.role == "seller" {
        AppRoutes.OwnDashboardAdmits(data.user.role);
      }
      thrown := false;
    }

    /** logout (lines 150-165): the request is fired and not awaited; whatever it does,
        both tokens, the header and the user are cleared and the login page is shown. */
    method Logout()
      modifies this, browser
      ensures calls == old(calls) + [PostLogout]
      ensures browser.accessToken == None && browser.refreshToken == None && browser.authorization == None
      ensures user == None && !IsAuthenticated() && loading == old(loading)
      ensures location == Some(AppRoutes.Login)
      ensures !loading ==> AppRoutes.Resolve(location.value, Session()) == AppRoutes.Render(AppRoutes.LoginPage)
    {
      calls := calls + [PostLogout];
      browser.accessToken := None;
      browser.refreshToken := None;
      browser.authorization := None;
      user := None;
      location := Some(AppRoutes.Login);
    }
  }

  /** A refused login on the login page, together with the interceptor that `src/main.tsx`
      installs on the same axios instance. The server refuses every login with 401, and that
      401 reaches the interceptor before `login`'s catch. With no refresh token stored, the
      interceptor removes both tokens, sends the page to `/login` and leaves its flag set;
      only then does `login` see the failure, which changes nothing more. */
  method RefusedLoginGivesUp(email: string, password: string)
    returns (handled: AxiosInterceptor.HandlerResult, effects: seq<AxiosInterceptor.Effect>,
             refreshing: bool, thrown: bool, signedOut: bool)
    ensures handled.RejectedNow? && thrown && refreshing && signedOut
    ensures effects == [AxiosInterceptor.GoToLogin,
                        AxiosInterceptor.RejectToCaller(AxiosInterceptor.ResponseError(
                          AxiosInterceptor.Request(1, true), Some(401)))]
  {
    var browser := new Browser(Some("leftover-access"), None);
    var interceptor := new AxiosInterceptor.RefreshCoordinator(browser);
    var provider := new AuthProvider(browser);
    var refusal := AxiosInterceptor.ResponseError(AxiosInterceptor.Request(1, false), Some(401));
    handled := interceptor.OnResponseError(refusal);
    thrown := provider.Login(email, password, Failed);
    effects, refreshing := interceptor.effects, interceptor.isRefreshing;
    signedOut := browser.accessToken == None && browser.refreshToken == None && provider.user == None;
  }

  /** `checkAuth` with only a refresh token stored, whose own refresh POST (line 66) the
      server refuses with 401. The interceptor sees an unretried 401 with the flag clear and
      a refresh token stored, so it starts a second refresh with the same token; that one's
      401 is queued behind itself. Neither POST settles, `checkAuth` never resumes, and
      `loading` keeps the value it was mounted with. */
  method RefusedBootRefreshHangs()
    returns (handled: AxiosInterceptor.HandlerResult, blocked: bool, refreshing: bool, loading: bool)
    ensures handled == AxiosInterceptor.AwaitingRefresh
    ensures blocked && refreshing && loading
  {
    var browser := new Browser(None, Some("refused-refresh"));
    var interceptor := new AxiosInterceptor.RefreshCoordinator(browser);
    var provider := new AuthProvider(browser);
    var bootRefresh := AxiosInterceptor.ResponseError(AxiosInterceptor.Request(1, false), Some(401));
    handled := interceptor.OnResponseError(bootRefresh);
    interceptor.RefreshRejectedAsWritten(AxiosInterceptor.ResponseError(AxiosInterceptor.Request(2, false), Some(401)));
    blocked, refreshing, loading := interceptor.refresh.Blocked?, interceptor.isRefreshing, provider.loading;
  }
}
