/** The route guards and route table of src/App.tsx. A guard reads three things from the
    auth context: `loading`, whether there is a user (`isAuthenticated` is `!!user`) and
    that user's role; here they are one `Auth` value whose `role` is `None` exactly when
    there is no user. */
module AppRoutes {
  import opened Common

  datatype Auth = Auth(loading: bool, role: Option<string>)

  datatype Page =
    | LoginPage | RegisterPage | VerifyEmailPage(token: string) | ForgotPasswordPage
    | ResetPasswordPage(token: string) | DashboardPage | BuyerDashboard | SellerDashboard

  /** What a route element renders: the spinner, a `<Navigate replace>`, or its page. */
  datatype View = Spinner | Redirect(to: string) | Render(page: Page)

  const Login := "/login"
  const BuyerHome := "/buyer/dashboard"
  const SellerHome := "/seller/dashboard"

  /** `user.role === 'buyer' ? '/buyer/dashboard' : '/seller/dashboard'`. */
  function RoleDashboard(role: string): (to: string)
    ensures to == BuyerHome <==> role == "buyer"
    ensures to == BuyerHome || to == SellerHome
  {
    if role == "buyer" then BuyerHome else SellerHome
  }

  /** ProtectedRoute (lines 20-36): signed-in users only. */
  function ProtectedRoute(a: Auth, page: Page): (v: View)
    ensures v == Spinner <==> a.loading
    ensures v.Render? <==> !a.loading && a.role.Some?
    ensures v.Render? ==> v.page == page
    ensures v.Redirect? ==> v.to == Login
  {
    if a.loading then Spinner
    else if a.role.None? then Redirect(Login)
    else Render(page)
  }

  /** RoleProtectedRoute (lines 39-60): signed-in users of one role; everyone else signed in
      is sent to the dashboard of their own role. */
  function RoleProtectedRoute(a: Auth, allowedRole: string, page: Page): (v: View)
    ensures v == Spinner <==> a.loading
    ensures v.Render? <==> !a.loading && a.role == Some(allowedRole)
    ensures v.Render? ==> v.page == page
    ensures !a.loading && a.role.None? ==> v == Redirect(Login)
    ensures !a.loading && a.role.Some? && a.role.value != allowedRole ==> v == Redirect(RoleDashboard(a.role.value))
  {
    if a.loading then Spinner
    else if a.role.None? then Redirect(Login)
    else if a.role.value != allowedRole then Redirect(RoleDashboard(a.role.value))
    else Render(page)
  }

  /** PublicRoute (lines 63-80): the sign-in pages, for visitors only. */
  function PublicRoute(a: Auth, page: Page): (v: View)
    ensures v == Spinner <==> a.loading
    ensures v.Render? <==> !a.loading && a.role.None?
    ensures v.Render? ==> v.page == page
    ensures !a.loading && a.role.Some? ==> v == Redirect(RoleDashboard(a.role.value))
  {
    if a.loading then Spinner
    else if a.role.Some? then Redirect(RoleDashboard(a.role.value))
    else Render(page)
  }

  /** The `:token` segment of `prefix + token`: non-empty and free of '/'. */
  function Param(path: string, prefix: string): (t: Option<string>)
    ensures t.Some? <==> StartsWith(path, prefix) && |path| > |prefix| && '/' !in path[|prefix|..]
    ensures t.Some? ==> path == prefix + t.value && t.value != "" && '/' !in t.value
  {
    if StartsWith(path, prefix) && |path| > |prefix| && '/' !in path[|prefix|..] then
      assert path == path[..|prefix|] + path[|prefix|..];
      Some(path[|prefix|..])
    else None
  }

  /** A string that differs from `prefix` at some position does not start with it. */
  lemma DiffersFrom(s: string, prefix: string, i: nat)
    requires i < |s| && i < |prefix| && s[i] != prefix[i]
    ensures !StartsWith(s, prefix)
  {
    if |prefix| <= |s| {
      assert s[..|prefix|][i] != prefix[i];
    }
  }

  /** The pages the public guard wraps. */
  predicate IsPublicPage(p: Page)
  {
    p.LoginPage? || p.RegisterPage? || p.VerifyEmailPage? || p.ForgotPasswordPage? || p.ResetPasswordPage?
  }

  /** The `<Routes>` table (lines 97-164), matched exactly. */
  function Resolve(path: string, a: Auth): (v: View)
    ensures v.Render? && IsPublicPage(v.page) ==> a.role.None?
    ensures v.Render? && !IsPublicPage(v.page) ==> a.role.Some?
    ensures v.Render? && v.page.ResetPasswordPage? ==> v.page.token != ""
    ensures v.Render? && v.page.VerifyEmailPage? ==> v.page.token != ""
  {
    if path == "/login" then PublicRoute(a, LoginPage)
    else if path == "/register" then PublicRoute(a, RegisterPage)
    else if Param(path, "/verify-email/").Some? then PublicRoute(a, VerifyEmailPage(Param(path, "/verify-email/").value))
    else if path == "/forgot-password" then PublicRoute(a, ForgotPasswordPage)
    else if Param(path, "/reset-password/").Some? then PublicRoute(a, ResetPasswordPage(Param(path, "/reset-password/").value))
    else if path == "/dashboard" then ProtectedRoute(a, DashboardPage)
    else if path == BuyerHome then RoleProtectedRoute(a, "buyer", BuyerDashboard)
    else if path == SellerHome then RoleProtectedRoute(a, "seller", SellerDashboard)
    else if path == "/" then Redirect(Login)
    else Redirect("/")
  }

  /** The view reached by following at most `hops` redirects from `path`. */
  function Follow(path: string, a: Auth, hops: nat): View
    decreases hops
  {
    var v := Resolve(path, a);
    if v.Redirect? && hops > 0 then Follow(v.to, a, hops - 1) else v
  }

  /** Routes the table does not guard. */
  predicate Unguarded(path: string)
  {
    path == "/" ||
    !(path == "/login" || path == "/register" || Param(path, "/verify-email/").Some? ||
      path == "/forgot-password" || Param(path, "/reset-password/").Some? ||
      path == "/dashboard" || path == BuyerHome || path == SellerHome)
  }

  /** Every guard shows the spinner while the session is loading, before it looks at the
      user; only the two catch-all redirects do not wait. */
  lemma LoadingComesFirst(path: string, a: Auth)
    requires a.loading
    ensures Unguarded(path) ==> Resolve(path, a) == Redirect(if path == "/" then Login else "/")
    ensures !Unguarded(path) ==> Resolve(path, a) == Spinner
  {
  }

  /** `/` goes to `/login`; anything unknown goes to `/`, and from there to `/login`. */
  lemma FallbackRoutes(path: string, a: Auth)
    requires Unguarded(path) && path != "/"
    ensures Resolve(path, a) == Redirect("/")
    ensures Follow(path, a, 2) == Resolve(Login, a)
  {
  }

  /** The dashboard a buyer or seller is redirected to admits them, so the role redirects
      cannot loop. */
  lemma OwnDashboardAdmits(role: string)
    requires role == "buyer" || role == "seller"
    ensures Resolve(RoleDashboard(role), Auth(false, Some(role))) ==
              Render(if role == "buyer" then BuyerDashboard else SellerDashboard)
  {
    DiffersFrom(RoleDashboard(role), "/verify-email/", 1);
    DiffersFrom(RoleDashboard(role), "/reset-password/", 1);
  }

  /** Once loading is over, a visitor or a buyer or seller reaches a page from any path
      in at most three redirects: visitors only public pages, signed-in users only
      guarded ones. */
  lemma NavigationSettles(path: string, a: Auth)
    requires !a.loading
    requires a.role == None || a.role == Some("buyer") || a.role == Some("seller")
    ensures Follow(path, a, 3).Render?
    ensures IsPublicPage(Follow(path, a, 3).page) <==> a.role.None?
  {
    var v := Resolve(path, a);
    if v.Redirect? {
      var w := Resolve(v.to, a);
      if a.role.Some? {
        OwnDashboardAdmits(a.role.value);
      }
      if w.Redirect? {
        var x := Resolve(w.to, a);
        assert !x.Redirect? || Resolve(x.to, a).Render?;
      }
    }
  }

  /** A user whose role is neither buyer nor seller is redirected from the seller
      dashboard to itself, without end. */
  lemma OtherRoleLoops(role: string)
    requires role != "buyer" && role != "seller"
    ensures Resolve(SellerHome, Auth(false, Some(role))) == Redirect(SellerHome)
  {
  }
}
