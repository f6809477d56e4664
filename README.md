# Buyer/seller authentication, modelled in Dafny

This project models the authentication core of a buyer/seller web application in two halves.

The server half is an Express API. `authController.js` holds the account handlers:
- register
- verify email
- log in
- who-am-I
- refresh the access token
- log out
- forgot password
- reset password

`authMiddleware.js` holds two route gates, `protect` and `authorize`. `generateTokens.js` issues and checks the access and refresh JSON Web Tokens (JWTs).

The client half is a React application with four core parts:
- the axios response interceptor. After an expired access token, it runs one token refresh and queues every other failed request behind it.
- the `AuthContext` session provider: `checkAuth` on load, plus `login` and `logout`.
- the route guards and route table of `App.tsx`.
- the zod form schemas of the registration and reset-password pages, and the reset page's submit handler.

Each part is modelled in the form its source takes. Code that mutates state step by step becomes a class whose methods have full state contracts:
- the user collection and its handlers: `AuthController.AuthServer`
- the browser's `localStorage` entries and the axios default header: `ClientStorage.Browser`
- the interceptor's module-level flag and queue: `AxiosInterceptor.RefreshCoordinator`
- the session provider: `AuthContext.AuthProvider`
- the reset page state: `ResetPasswordPage.ResetPasswordView`

Pure decision code becomes functions with lemmas about them: the token utilities, the guards, the route table and the schemas.

Modules follow the source files:

| module | file | models |
|---|---|---|
| `Common` | `common.dfy` | optional values, handler errors, JavaScript truthiness and `startsWith` |
| `Tokens` | `tokens.dfy` | `server/utils/generateTokens.js` |
| `AuthController` | `auth_controller.dfy` | `server/controllers/authController.js` |
| `AuthMiddleware` | `auth_middleware.dfy` | `server/middleware/authMiddleware.js` |
| `ClientStorage` | `client_storage.dfy` | `localStorage` and the axios default `Authorization` header |
| `AxiosInterceptor` | `axios_interceptor.dfy` | `src/lib/axiosInterceptor.ts` |
| `AuthContext` | `auth_context.dfy` | `src/context/AuthContext.tsx` |
| `AppRoutes` | `app_routes.dfy` | `src/App.tsx` |
| `RegisterPage` | `register_page.dfy` | `registerSchema` of `src/pages/RegisterPage.tsx` |
| `ResetPasswordPage` | `reset_password_page.dfy` | `src/pages/ResetPasswordPage.tsx` |
| `Scenarios` | `scenarios.dfy` | end-to-end traces of the server handlers |

## How the model works

**Tokens.**
- A JWT is transparent. `Token(id, secret, issuedAt, ttl)` records the id, the key that signed it, the issue second and the lifetime.
- A string presented as a JWT is `Signed(token)` or `Malformed(text)`.
- Signing with an empty key is `None`, the exception `jwt.sign` throws. Verification succeeds exactly when the key is non-empty and matches and the clock is before `issuedAt + ttl`.
- jsonwebtoken counts whole seconds, so the controller's millisecond clock is divided by 1000.

**User collection.**
- The collection is a map from id to record. Ids are handed out in creation order.
- `findOne` returns the first match in id order.
- SHA-256 is an injective digest constructor.
- The user model's outputs are method parameters: the raw one-time tokens and their expiries.
- A password check is equality with the stored credential.
- Mail delivery is a boolean parameter.
- A handler that throws without setting a status passes `Unexpected(...)` to `next`.

**Interceptor.**
- Every effect the interceptor has on the outside world is appended to an ordered log, `effects`.
- The asynchronous handler is split into its events: the failed response itself, and the two ways the awaited refresh call can return.
- The object invariant `Valid()` says three things:
  - everything queued has been settled exactly once, in order, or is still waiting;
  - every refresh call but the one being awaited has finished, so at most one is outstanding;
  - a refresh is outstanding only while the flag is set.

**Client network calls.** Each awaited call's outcome is an input. The calls made are recorded, and `navigate(...)` is recorded only as its destination.

## Model

| member | source | states |
|---|---|---|
| `Tokens.RefreshSecret` | server/utils/generateTokens.js:16 | the refresh key is `JWT_REFRESH_SECRET` when that is set and non-empty, otherwise `JWT_SECRET` |
| `Tokens.GenerateAccessToken` | server/utils/generateTokens.js:4-10 | `jwt.sign({ id }, JWT_SECRET, { expiresIn: '15m' })`, `None` where `jwt.sign` throws for an empty key; what it promises is stated by `Tokens.AccessTokenRoundTrip` and `Tokens.KindsSeparated` |
| `Tokens.GenerateRefreshToken` | server/utils/generateTokens.js:13-19 | `jwt.sign({ id }, key, { expiresIn: '7d' })` with the key of `Tokens.RefreshSecret`, `None` when that key is empty; stated by `Tokens.RefreshTokenRoundTrip`, `Tokens.KindsSeparated` and `Tokens.FallbackSharesKey` |
| `Tokens.VerifyAccessToken` | server/utils/generateTokens.js:22-28 | verification with `JWT_SECRET`, `None` on any failure and never an exception; stated by `Tokens.VerifyAccepts` and `Tokens.AccessTokenRoundTrip` |
| `Tokens.VerifyRefreshToken` | server/utils/generateTokens.js:31-37 | verification with the refresh key choice, `None` on any failure; stated by `Tokens.VerifyAccepts` and `Tokens.RefreshTokenRoundTrip` |
| `Tokens.VerifyAccepts` | server/utils/generateTokens.js:22-37 | verification yields the token's id exactly when the key is non-empty and matches and the clock is before expiry; every failure is `None`, never an exception |
| `Tokens.AccessTokenRoundTrip` | server/utils/generateTokens.js:4-28 | an access token is issued exactly when `JWT_SECRET` is non-empty, and then verifies to its id for exactly 900 seconds, then fails |
| `Tokens.RefreshTokenRoundTrip` | server/utils/generateTokens.js:13-37 | a refresh token is issued exactly when one of the two secrets is non-empty, and then verifies to its id for exactly 604800 seconds, because generator and verifier share the key choice |
| `Tokens.KindsSeparated` | server/utils/generateTokens.js:4-37 | with distinct keys, the access verifier rejects refresh tokens and the refresh verifier rejects access tokens |
| `Tokens.FallbackSharesKey` | server/utils/generateTokens.js:16 | without a refresh secret, a refresh token is issued exactly when `JWT_SECRET` is non-empty, and an unexpired one is accepted as an access token |
| `AuthController.ParseRole` | server/controllers/authController.js:22-25 | the role check passes exactly for `buyer` and `seller` |
| `AuthController.Sha256Injective` | server/controllers/authController.js:73-76 | the modelling assumption on the digest, stated: equal digests come from equal tokens, so only the holder of the raw token matches a stored digest |
| `AuthController.ProjectionsOmitPassword` | server/controllers/authController.js:138-159 | neither the login `user` object nor the `-password` projection depends on the password |
| `AuthController.CookieMatchesRefreshLifetime` | server/controllers/authController.js:141-146 | the refresh cookie's max age is the refresh token's 7-day lifetime, in milliseconds |
| `AuthController.FindFrom` | server/controllers/authController.js:78-81 | `findOne` returns a matching record with no match before it in id order, or `None` only when nothing matches |
| `AuthController.FindAfterConsume` | server/controllers/authController.js:88-91 | once the found record stops matching, the same query finds the next match after it |
| `AuthController.ClearRefreshToken` | server/controllers/authController.js:225 | `findByIdAndUpdate(id, { refreshToken: null })` empties that user's slot and keeps every other field of the record, keeps the ids and changes no other record |
| `AuthController.AuthServer.FindOne` | server/controllers/authController.js:15 | the lookup over the whole collection finds a matching user, or none exists |
| `AuthController.AuthServer.RegisterUser` | server/controllers/authController.js:10-64 | a duplicate email gives 400 before the role is checked; an invalid role gives 400; neither creates anything; otherwise one unverified user is created with the verification digest and expiry, and a failed mail leaves it in place |
| `AuthController.AuthServer.VerifyEmail` | server/controllers/authController.js:69-100 | succeeds iff some user holds the digest with an expiry strictly after now; that user is marked verified and both fields are cleared; otherwise 400 with nothing changed |
| `AuthController.AuthServer.LoginUser` | server/controllers/authController.js:105-164 | unknown email and wrong password give the same 401; an unverified user gets 401 only after the password matched; with an empty `JWT_SECRET` a verified user's login fails with `jwt.sign`'s error and saves nothing; success writes the new refresh token into the single slot and returns both tokens, the password-free user and the cookie |
| `AuthController.AuthServer.GetMe` | server/controllers/authController.js:169-179 | returns the caller's record without its password, `null` data for a vanished user, and a TypeError for the null user `protect` lets through |
| `AuthController.AuthServer.RefreshAccessToken` | server/controllers/authController.js:184-217 | answers 200 with a new access token iff a token is presented, verifies with the refresh key, equals the stored one and `JWT_SECRET` is non-empty; every failure, the missing token and a throwing `jwt.sign` included, is the same 401; the store is not changed |
| `AuthController.AuthServer.LogoutUser` | server/controllers/authController.js:222-240 | clears the user's stored refresh token and expires the cookie |
| `AuthController.AuthServer.ForgotPassword` | server/controllers/authController.js:245-286 | an unknown email gives 404 and changes nothing; otherwise the reset digest and expiry are stored before the mail is sent |
| `AuthController.AuthServer.ResetPassword` | server/controllers/authController.js:291-324 | succeeds iff some user holds the reset digest with an expiry strictly after now; the password is replaced and both reset fields cleared; otherwise 400 with nothing changed |
| `AuthController.VerificationTokenSingleUse` | server/controllers/authController.js:78-91 | after a verification, the same token never finds that user again, and finds no one if no other user holds it |
| `AuthController.ResetTokenSingleUse` | server/controllers/authController.js:301-315 | after a reset, the same token never finds that user again, and finds no one if no other user holds it |
| `AuthController.FreshRefreshTokenAccepted` | server/controllers/authController.js:194-204 | a just-stored refresh token, when one could be signed, is accepted for exactly its 7-day lifetime |
| `AuthController.LoginSupersedesRefreshToken` | server/controllers/authController.js:199-204 | once a later login has overwritten the slot, an earlier refresh token is refused |
| `AuthController.LogoutEndsRefresh` | server/controllers/authController.js:225 | after logout no refresh token naming the user is accepted, and logging out twice gives the same collection as logging out once |
| `AuthController.ResetKeepsSession` | server/controllers/authController.js:311-315 | a password reset accepts exactly the refresh tokens that were accepted before |
| `AuthMiddleware.BearerCarriesToken` | server/middleware/authMiddleware.js:14-15 | `Bearer <t>` with no space in `t` takes the header fallback and yields `t` as the second piece of the split |
| `AuthMiddleware.BearerWithoutSpace` | server/middleware/authMiddleware.js:15 | a header with no space yields no token, so verification fails |
| `AuthMiddleware.Admit` | server/middleware/authMiddleware.js:22-33 | reaches `next()` iff the token is non-empty and verifies with `JWT_SECRET`, with the password-free record or `null` for a vanished user; otherwise 401 "token failed" |
| `AuthMiddleware.Protect` | server/middleware/authMiddleware.js:6-34 | a truthy `token` cookie is used; only without one is a header starting with "Bearer" consulted; with neither, 401 "no token" and no verification runs |
| `AuthMiddleware.Authorize` | server/middleware/authMiddleware.js:37-45 | passes iff the user's role is in the list, else 403 with the role in the message; a null user is a TypeError |
| `AuthMiddleware.AuthorizeMonotone` | server/middleware/authMiddleware.js:39 | widening the role list never rejects a user it admitted |
| `AxiosInterceptor.SettleAllLog` | src/lib/axiosInterceptor.ts:9-15 | draining settles each queued entry exactly once, in queue order, all rejected with the error or all resolved with the token |
| `AxiosInterceptor.RefreshCoordinator.constructor` | src/lib/axiosInterceptor.ts:5-6 | starts with the flag clear, the queue empty and no refresh outstanding |
| `AxiosInterceptor.RefreshCoordinator.ProcessQueue` | src/lib/axiosInterceptor.ts:8-18 | appends the settlement of every queued entry, in order, and empties the queue, keeping the invariant |
| `AxiosInterceptor.RefreshCoordinator.Enqueue` | src/lib/axiosInterceptor.ts:29-41 | a 401 during a refresh is pushed onto the end of the queue and starts no refresh |
| `AxiosInterceptor.RefreshCoordinator.GiveUp` | src/lib/axiosInterceptor.ts:48-54 | with no refresh token, both stored tokens are removed and the request is rejected; the flag is left as it is |
| `AxiosInterceptor.RefreshCoordinator.StartRefresh` | src/lib/axiosInterceptor.ts:56-59 | posts the stored refresh token; that is now the one outstanding refresh |
| `AxiosInterceptor.RefreshCoordinator.BeginRefresh` | src/lib/axiosInterceptor.ts:43-59 | the first 401 marks `_retry` and sets the flag, then rejects if no refresh token is stored, else posts exactly one refresh |
| `AxiosInterceptor.RefreshCoordinator.OnResponseError` | src/lib/axiosInterceptor.ts:24-87 | a non-401, or a 401 on a retried request, is rejected unchanged; during a refresh a 401 is queued; otherwise one refresh starts, or the request is rejected when no refresh token is stored and the flag stays set |
| `AxiosInterceptor.RefreshCoordinator.FinishRefresh` | src/lib/axiosInterceptor.ts:81-83 | the `finally` clears the flag and ends the outstanding refresh |
| `AxiosInterceptor.RefreshCoordinator.RefreshSucceeded` | src/lib/axiosInterceptor.ts:61-83 | stores the new token and default header, resolves the whole queue with it, then replays the original request once, and clears the flag |
| `AxiosInterceptor.RefreshCoordinator.EndSession` | src/lib/axiosInterceptor.ts:76-80 | removes both tokens and the header, goes to `/login` and rejects with the refresh error |
| `AxiosInterceptor.RefreshCoordinator.RefreshFailed` | src/lib/axiosInterceptor.ts:73-83 | rejects the whole queue with the refresh error in order, ends the session and clears the flag |
| `AxiosInterceptor.RefreshCoordinator.RefreshRejectedAsWritten` | src/lib/axiosInterceptor.ts:28-41 | a 401 answer to the refresh POST is seen by the same interceptor and queued behind itself, so nothing is settled and the flag stays set |
| `AxiosInterceptor.RejectedRefreshHangsAsWritten` | src/lib/axiosInterceptor.ts:24-87 | on a fixed event sequence with the code as written, a rejected refresh leaves the queued request and the refresh request waiting and the flag set |
| `AxiosInterceptor.RejectedRefreshSettles` | src/lib/axiosInterceptor.ts:73-83 | when the failure reaches the catch, the queued request is rejected, the flag clears and both tokens are gone |
| `AxiosInterceptor.MissingRefreshTokenKeepsFlag` | src/lib/axiosInterceptor.ts:43-54 | with no refresh token stored, the first 401 is rejected and every later 401 is queued with no refresh to settle it |
| `AuthContext.AuthProvider.constructor` | src/context/AuthContext.tsx:32-33 | a mounted provider has no user and is loading |
| `AuthContext.AuthProvider.Session` | src/context/AuthContext.tsx:207-210 | the guards see `loading` as is, and a role exactly when `isAuthenticated`, which is `!!user` |
| `AuthContext.AuthProvider.CheckAuth` | src/context/AuthContext.tsx:38-92 | covers every branch: no tokens gives no calls; a working access token sets the user; otherwise the refresh path sets the token and user on success and removes both tokens on failure; an access token failing `/me` with no refresh token is kept; `loading` ends false on every path |
| `AuthContext.AuthProvider.Login` | src/context/AuthContext.tsx:117-147 | stores both tokens and the header, sets the user, and sends a buyer or seller to a dashboard the route table then renders for them; a failure changes nothing more in `login` itself and is rethrown (what the interceptor does first is `AuthContext.RefusedLoginGivesUp`) |
| `AuthContext.RefusedLoginGivesUp` | src/lib/axiosInterceptor.ts:28-53 | a login refused with 401 while no refresh token is stored first goes through the interceptor: it removes both tokens, sends the page to `/login` and leaves `isRefreshing` set; `login` then rethrows and signs no one in |
| `AuthContext.RefusedBootRefreshHangs` | src/context/AuthContext.tsx:64-68 | when the server refuses `checkAuth`'s own refresh POST with 401, the interceptor starts a second refresh with the same token, whose 401 is queued behind itself; the refresh stays blocked, the flag set and `loading` true |
| `AuthContext.AuthProvider.Logout` | src/context/AuthContext.tsx:150-165 | whatever the logout call does, clears both tokens, the header and the user, and goes to `/login`, which then shows the login page |
| `AppRoutes.RoleDashboard` | src/App.tsx:56 | a buyer goes to `/buyer/dashboard`, anyone else to `/seller/dashboard` |
| `AppRoutes.ProtectedRoute` | src/App.tsx:20-36 | spinner iff loading; renders iff loaded and signed in; otherwise redirects to `/login` |
| `AppRoutes.RoleProtectedRoute` | src/App.tsx:39-60 | spinner iff loading; renders iff loaded with exactly the allowed role; a visitor goes to `/login`, another role to its dashboard |
| `AppRoutes.PublicRoute` | src/App.tsx:63-80 | spinner iff loading; renders iff loaded with no user; a signed-in user goes to their dashboard |
| `AppRoutes.Param` | src/App.tsx:115 | a `:token` segment is matched exactly when the path extends the prefix by a non-empty, slash-free token |
| `AppRoutes.Resolve` | src/App.tsx:97-164 | public pages are rendered only to visitors, guarded pages only to signed-in users, and a token page always has a non-empty token |
| `AppRoutes.LoadingComesFirst` | src/App.tsx:20-80 | while loading, every guarded route shows the spinner; only `/` and unknown paths redirect |
| `AppRoutes.FallbackRoutes` | src/App.tsx:162-163 | an unknown path redirects to `/`, and two hops reach what `/login` shows |
| `AppRoutes.OwnDashboardAdmits` | src/App.tsx:146-160 | a buyer or seller redirected to their own dashboard is admitted there, so there is no redirect loop |
| `AppRoutes.NavigationSettles` | src/App.tsx:97-164 | once loaded, a visitor, buyer or seller reaches a rendered page from any path in at most three redirects: visitors only public pages, users only guarded ones |
| `AppRoutes.OtherRoleLoops` | src/App.tsx:54-56 | a role other than buyer or seller is redirected from the seller dashboard to itself |
| `RegisterPage.NameAccepted` | src/pages/RegisterPage.tsx:16-21 | a name passes iff it has 2 to 50 characters, each an ASCII letter or JavaScript whitespace |
| `RegisterPage.AsciiLowerSpec` | src/pages/RegisterPage.tsx:26 | lowercasing keeps the length, leaves no capital, changes no other character and is idempotent |
| `RegisterPage.PasswordIssues` | src/pages/RegisterPage.tsx:27-34 | the password chain reports nothing iff the length is at least 8 and an upper-case letter, a lower-case letter, a digit and a special character all occur; a short password's first message is the required or length one |
| `RegisterPage.RoleIssues` | src/pages/RegisterPage.tsx:36-39 | the role passes iff it is exactly `buyer` or `seller` |
| `RegisterPage.Issues` | src/pages/RegisterPage.tsx:14-44 | `registerSchema`'s issues in zod's order, the mismatch refinement only with a valid role; what it accepts is stated by `RegisterPage.RegisterAccepted` and `RegisterPage.MismatchOnConfirm` |
| `RegisterPage.ParseRegister` | src/pages/RegisterPage.tsx:14-44 | the form is accepted iff there are no issues; the data passed on has the email lowercased, and the other fields are unchanged |
| `RegisterPage.RegisterAccepted` | src/pages/RegisterPage.tsx:14-44 | the form is accepted iff every rule holds: name, non-empty valid email, strong password, equal confirmation, and a buyer or seller role |
| `RegisterPage.MismatchOnConfirm` | src/pages/RegisterPage.tsx:41-44 | a differing confirmation is the only issue, reported on `confirmPassword`; with an invalid role it is not reported |
| `ResetPasswordPage.ResetIssues` | src/pages/ResetPasswordPage.tsx:14-29 | `resetPasswordSchema`'s issues, the refinement always run; stated by `ResetPasswordPage.ResetAccepted`, `ResetPasswordPage.MismatchReported` and `ResetPasswordPage.IssuesOnPasswordFields` |
| `ResetPasswordPage.ResetAccepted` | src/pages/ResetPasswordPage.tsx:14-29 | the reset form passes iff the password meets the same strength rule as registration and the confirmation repeats it |
| `ResetPasswordPage.MismatchReported` | src/pages/ResetPasswordPage.tsx:26-29 | a differing confirmation is always reported, last, on `confirmPassword` |
| `ResetPasswordPage.IssuesOnPasswordFields` | src/pages/ResetPasswordPage.tsx:14-29 | every issue concerns the password or the confirmation field |
| `ResetPasswordPage.ResetPasswordView.constructor` | src/pages/ResetPasswordPage.tsx:37-39 | the page starts idle with no error and not succeeded |
| `ResetPasswordPage.ResetPasswordView.View` | src/pages/ResetPasswordPage.tsx:68-91 | the success screen is shown iff `isSuccess`; otherwise the form shows the error and loading state |
| `ResetPasswordPage.ResetPasswordView.Submit` | src/pages/ResetPasswordPage.tsx:50-66 | an invalid form does nothing; a missing token sets the error and calls nothing; otherwise one call is made, success sets `isSuccess`, failure keeps it and sets the message or the default, and loading ends false |
| `Scenarios.RegisterAndVerify` | server/controllers/authController.js:10-127 | registration gives 201; a login before verification is refused as unverified; the emailed token verifies the account, leaving exactly the verified buyer `Ann()` in the store, the store the other scenarios start from |
| `Scenarios.LoginThenRefresh` | server/controllers/authController.js:105-217 | a login's refresh token buys a new access token later |
| `Scenarios.SecondLoginRetiresFirst` | server/controllers/authController.js:130-204 | after a second login the first refresh token is refused and the second accepted |
| `Scenarios.LogoutRetiresRefresh` | server/controllers/authController.js:184-240 | after logout the refresh token that was current is refused |

## Findings

| source | as written | input that shows it | evidently intended | confidence | as-written member | corrected member |
|---|---|---|---|---|---|---|
| src/lib/axiosInterceptor.ts:28-41 | The refresh POST at lines 57-59 goes through the global axios instance, whose interceptor is installed at `src/main.tsx:10`. Its 401 therefore reaches the same handler while `isRefreshing` is set, and the handler queues it behind itself. The awaited refresh never settles, so the queue is never drained and the flag never clears. When the waiting request is `checkAuth`'s `/auth/me` (`src/context/AuthContext.tsx:53`) or `checkAuth`'s own refresh POST (`src/context/AuthContext.tsx:66`, `AuthContext.RefusedBootRefreshHangs`), `checkAuth` never returns, `loading` stays true and every guarded route shows its spinner | a stored refresh token that the server refuses with 401 (`server/controllers/authController.js:213-215`) while another request is waiting | the refresh failure reaches the catch at lines 73-80, which rejects the queue, clears the session and clears the flag | not executed | `AxiosInterceptor.RefreshCoordinator.RefreshRejectedAsWritten`, with the event sequence `AxiosInterceptor.RejectedRefreshHangsAsWritten` | `AxiosInterceptor.RefreshCoordinator.RefreshFailed`, with the same event sequence in `AxiosInterceptor.RejectedRefreshSettles` |

## Behaviour kept as the code has it

These are not findings, but they are worth knowing:
- `protect` reads a cookie named `token`, but login sets a cookie named `refreshToken` (`server/middleware/authMiddleware.js:10`, `server/controllers/authController.js:141`). In practice, only the `Authorization` header authenticates.
- Without a non-empty `JWT_REFRESH_SECRET`, both token kinds share one key. A refresh token then passes `protect` for 7 days (`Tokens.FallbackSharesKey`).
- Two logins by the same user within one second produce identical tokens, because jsonwebtoken's clock has whole-second resolution.
- `resetPassword` leaves the stored refresh token in place, so a password reset does not end existing sessions (`AuthController.ResetKeepsSession`).
- `forgotPassword` says whether an email is registered (404). `loginUser` deliberately does not.
- The unverified-user check comes after the password check, so "verify your email" confirms that the password was right.
- When no refresh token is stored, the interceptor's early return skips the `finally`, so `isRefreshing` stays set and later 401s wait in the queue (`AxiosInterceptor.MissingRefreshTokenKeepsFlag`). The redirect to `/login` reloads the page, which resets the module, so this is modelled as written and not listed as a finding.
- A request replayed from the queue (`src/lib/axiosInterceptor.ts:35-36`) is sent without `_retry`. A second 401 on it starts another refresh, so "retried at most once" holds only for the request that started the refresh. The model allows this: a queued request keeps the `retry` mark it arrived with (`AxiosInterceptor.RefreshCoordinator.OnResponseError`).
- On the client, a role other than buyer or seller would loop on `/seller/dashboard` (`AppRoutes.OtherRoleLoops`).
- The reset page's `!token` guard cannot fire through the route table, which matches `/reset-password/:token` only with a non-empty token (`AppRoutes.Resolve`). The model still includes it.
- `resetPassword`'s success calls `navigate('/login')` (`src/context/AuthContext.tsx:197`) before the page sets `isSuccess` (`src/pages/ResetPasswordPage.tsx:58-59`). The navigation unmounts the reset page, so the success screen that `ResetPasswordPage.ResetPasswordView.View` describes is most likely never visible. The model keeps that screen as the page defines it.
- Consuming a one-time token reads the user record and saves it back (`server/controllers/authController.js:78-91`, `301-315`). It is not one atomic update. The model follows the code, and its handlers run one at a time, so nothing in the model depends on atomicity.

## Left out

- Sending email (`server/utils/sendEmail.js`) is a boolean parameter saying whether delivery succeeded. The message text and the 24-hour and 10-minute wording exist only inside that text.
- The user model file is not part of this model. Its one-time token generation, the token expiries, password hashing on save and `matchPassword` are represented by parameters and by equality with the stored credential.
- AuthController.AuthServer.LoginUser: compares the presented password with the stored one by equality. bcrypt, and its 72-byte truncation, are not modelled.
- AuthMiddleware.Protect: takes the JWT decoding of a string as a parameter, `decode`. Compact serialization, signatures and cryptography are not modelled.
- Database failures, the `CastError` of a malformed id, and the Mongo query language beyond equality and a strict expiry comparison are not modelled.
- The controller does not lowercase emails. Whether the user model's schema does is not known, because that file is not part of this model. The model compares emails exactly; only the client's registration schema lowercases.
- The server handlers' destructured body fields are assumed present: `name`, `email` and `password` in `registerUser`, `email` and `password` in `loginUser`, `email` in `forgotPassword`, and `password` in `resetPassword`. An `undefined` one of these is not modelled. The optional values that the code tests are modelled as `Option`s: the registration `role` and the presented refresh token.
- Express route wiring (`server/routes/authRoutes.js`) is not part of this model. `GetMe` and `LogoutUser` are given what `protect` would set in `req.user`.
- `checkAuth`'s outer `catch` (lines 84-88) only fires when `localStorage` itself throws, which the model does not represent.
- AuthContext.AuthProvider.CheckAuth: the contract covers `checkAuth`'s own branches only. Its calls go through the same global axios, whose interceptor `src/main.tsx:10` installs, so a 401 from `/auth/me` reaches the interceptor first. With no refresh token stored, the interceptor's give-up path removes both tokens and sets `/login`, so the kept access token of the contract holds only for `checkAuth` alone. With a refresh token stored, the interceptor refreshes and replays `/me`; if the server refuses that refresh, the deadlock under "## Findings" leaves `checkAuth` waiting forever, with `loading` true and the guarded routes showing their spinner. The same holds for `checkAuth`'s own refresh POST (line 66): a 401 refusing it reaches the interceptor, which starts a second refresh with the same stored token, and that refresh's 401 queues behind itself (`AuthContext.RefusedBootRefreshHangs`). The contract's branch that removes both tokens is therefore reached on the page only when the refresh fails with a status other than 401.
- AuthContext.AuthProvider.Login: the contract covers `login` alone. Its POST goes through the global axios, and the server answers every refusal with 401 (`server/controllers/authController.js:112-113`, `119-120`, `125-126`). That 401 reaches the interceptor first. With no refresh token stored, as is usual on the login page, the interceptor sets `isRefreshing`, removes both tokens and sets `window.location.href = '/login'`, a full reload, before `login` sees the error (`AuthContext.RefusedLoginGivesUp`). With a refresh token still stored, the interceptor instead starts a refresh, and `login` waits for it.
- Refresh coordination across browser tabs is concurrency between independent browser contexts and is not modelled.
- AxiosInterceptor.RefreshCoordinator.RefreshSucceeded: assumes the refresh response carries an `accessToken`.
- The replayed requests' own outcomes are not modelled: the log records the replay, not its result.
- AppRoutes.Resolve: matches paths exactly. React Router's case-insensitive matching, trailing slashes and percent-decoding are not modelled.
- RegisterPage.AsciiLower: lowercases ASCII letters only. JavaScript's full Unicode `toLowerCase` is not modelled.
- RegisterPage.EmailIssues: takes zod's email-format test as a parameter, `isEmail`.
- Toasts, JSX markup, the theme and `window.location` are not modelled. Navigation is recorded only as a destination.
- `RegisterPage`'s `isLoading` toggling and submit handler are not modelled.
- The context's `register`, `verifyEmail` and `forgotPassword` wrappers are not modelled. Neither are `ForgotPasswordPage`, `VerifyEmailPage`, the dashboards or `main.tsx`. They only render, or pass a call through.
- ResetPasswordPage.ResetPasswordView.Submit: takes the outcome of the context's `resetPassword` as an input, `ResetDone` or `ResetFailed(message)`. On success, the context's `navigate('/login')` (`src/context/AuthContext.tsx:197`) runs before `setIsSuccess(true)`. The model records both.
