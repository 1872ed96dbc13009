# Administrative portal: session, OAuth callback and pagination model

A Dafny model of the decision logic inside the route handlers of a small
FastAPI portal that signs users in against an Authentik (OpenID Connect)
provider and proxies its management API.

- `common.dfy` (module `Common`): `Option`, Python truthiness of a session
  string, `dict.get`, the login path `/` and the default redirect status 307.
- `session.dfy` (module `Sessions`): the browser session as a class whose
  `data: map<string, string>` field the handlers change in place (`Set`,
  `Pop`, `Clear`), and the `token` / `oauth_state` keys.
- `tokens.dfy` (module `Tokens`): the token claims the handlers read, and
  token decoding as an opaque function from token text to optional claims.
- `admin.dfy` (module `Admin`, pure): the current-user lookup for log lines;
  the user-list pagination (`ceil(n/10)` pages, Python's clamping slice,
  previous/next page, the page-number list); the users, groups, roles and
  scopes listings and scope creation, each gated on the session token, with
  the upstream response as an input.
- `dashboard.dfy` (module `Dashboard`, mixed): the dashboard's gate on token,
  decoding, expiry and e-mail, then the role view chosen by group
  membership; and the internal API's token gate. Each handler is a method
  that clears the session when the source does, proved equal to a pure
  function of the session before the request.
- `auth.dfy` (module `Auth`, imperative): `/oauth/authorize` stores the CSRF
  state (section 10.12 of RFC 6749), `/oauth/callback` checks and consumes it
  and stores the access token, and both logout routes empty the session.
  Each handler is a method on the session, proved equal to a pure function,
  and the flow's properties (replay refused, forged state refused, a full
  login stores exactly the token) are lemmas over those functions.

Inputs the model takes instead of computing: token decoding (`Decoder`), the
current time (`now`), the random state nonce (`state`, constrained to what
`secrets.token_urlsafe(16)` produces), the provider's responses (`Upstream`,
`Exchange`, and `post` for scope creation) and the configured end-session URL
(`logoutUrl`).

## Behaviour worth knowing

- The callback stores only the access token; no refresh token is stored and
  no refresh route exists.
- A live token without an e-mail claim redirects to `/` but does not clear
  the session.
- The users, groups and roles listings treat any status other than exactly
  200 as an error, not any non-2xx one; the scopes listing never looks at the
  status.
- The administrator view is chosen by two explicit membership tests, one per
  administrator group name.

## Model

| member | source | states |
|---|---|---|
| `Admin.LoggedInUser` | routers/admin.py:15-27 | the result is a user name other than "UnknownUser" only when the session has a token that decodes and carries that `preferred_username`; when such a claim exists, it is the result |
| `Admin.TotalPages` | routers/admin.py:45-46 | the page count is the ceiling of n/10: ten times it covers n, one page fewer does not, and it is 0 exactly for an empty list |
| `Admin.Slice` | routers/admin.py:47 | Python's slice with non-negative bounds: its length is `max(0, min(hi, n) - lo)`, clamped rather than failing, and element i is `s[lo + i]` |
| `Admin.Range` | routers/admin.py:54 | `list(range(lo, hi))` has `max(0, hi - lo)` elements and element i is `lo + i` |
| `Admin.Paginate` | routers/admin.py:44-56 | the page holds the users at indices `[(page-1)*10, min(page*10, n))` in order, at most 10, and is empty exactly beyond the last page; `prev_page` is absent exactly on page 1 and is otherwise page-1; `next_page` is page+1 exactly before the last page and absent from the last page on; `pages` is exactly 1..ceil(n/10) |
| `Admin.PagesUpToIsPrefix` | routers/admin.py:44-47 | pages 1..k together hold exactly the first min(10k, n) users, in order |
| `Admin.PagesCoverList` | routers/admin.py:44-47 | concatenating the slices of pages 1..ceil(n/10) gives back the whole user list |
| `Admin.PageOfIndex` | routers/admin.py:47 | user i appears on page i/10+1 at position i mod 10 |
| `Admin.Results` | routers/admin.py:44 | `data.get("results", [])`: the results list, the empty list when the key is missing, and an error when the body is not a JSON object |
| `Admin.AdminUsers` | routers/admin.py:29-57 | no token (`Sessions.HasToken`: the `token` entry absent or empty) gives a redirect to `/` whatever the provider would answer; a status other than 200 raises with that status; a 200 raises (500) exactly when its body does not decode or is not a JSON object; otherwise the answer is the requested page of its results |
| `Admin.Listing` | routers/admin.py:59-93 | the shared gate and status check of the groups and roles listings; a 200 raises (500) exactly when its body does not decode or is not a JSON object; otherwise the listed items are the response's results |
| `Admin.AdminGroups` | routers/admin.py:59-75 | no token redirects to `/`; a status other than 200 raises with that status; a 200 raises (500) exactly when its body does not decode or is not a JSON object; otherwise the group results are listed |
| `Admin.AdminRoles` | routers/admin.py:77-93 | no token redirects to `/`; a status other than 200 raises with that status; a 200 raises (500) exactly when its body does not decode or is not a JSON object; otherwise the role results are listed |
| `Admin.AdminScopes` | routers/admin.py:95-113 | no token redirects to `/`; the status is never checked, so no HTTP error is raised; a blank body (`IsBlank`: every character is whitespace by Python's `str.isspace`, `IsSpace`) or an undecodable one lists nothing; a decodable non-object body raises, and exactly then |
| `Admin.CreateScope` | routers/admin.py:115-142 | no token redirects to `/`; otherwise the form is posted renamed as `name, scope_name, description, expression`, the answer is a 303 redirect to `/admin/scopes` exactly when the provider answers 201, and any other status is raised |
| `Admin.NoTokenNoUpstream` | routers/admin.py:33-37 | without a token, no admin handler's answer depends on the provider's answer |
| `Dashboard.RoleFor` | routers/dashboard.py:34-39 | the admin view exactly when the groups hold "Administrador" or "authentik Admins"; else the developer view exactly when they hold "Desarrollador"; else the guest view |
| `Dashboard.MoreGroupsNeverLowerRole` | routers/dashboard.py:34-39 | adding groups never lowers the view: the dispatch is priority-ordered |
| `Dashboard.DashboardSpec` | routers/dashboard.py:8-39 | no token redirects with the session kept; an undecodable or expired token (`Expired`: `now >= exp`, a missing `exp` read as 0) clears the session and redirects; a live token without an e-mail redirects with the session kept; a live token with an e-mail but no `groups` claim raises (500) with the session kept; otherwise the view its groups select is shown, with the claims copied into the user info (`InfoOf`) |
| `Dashboard.ExpiredNeverViews` | routers/dashboard.py:15-17 | a token expired at `now` is refused, with the session cleared, at every later instant |
| `Dashboard.Dashboard` | routers/dashboard.py:8-39 | the handler's answer and the session it leaves are those of `DashboardSpec` on the session before the request |
| `Dashboard.InternalApiSpec` | routers/dashboard.py:41-51 | no token gives 401 with the session kept; an undecodable token gives 401 with the session cleared; otherwise the session's token is returned unchanged |
| `Dashboard.InternalApiIgnoresExpiry` | routers/dashboard.py:43-51 | the internal API grants an expired but decodable token that the dashboard refuses |
| `Dashboard.InternalApi` | routers/dashboard.py:41-51 | the handler's answer and the session it leaves are those of `InternalApiSpec` |
| `Common.Get` | routers/admin.py:33 | `session.get(key)` is present exactly when the key is, with that key's value; a string entry counts as set only when present and non-empty (`Common.Truthy`, Python truthiness) |
| `Sessions.Session.Lookup` | routers/auth.py:22 | reading a key of the session object is present exactly when the key is, with its value |
| `Sessions.Session.Set` | routers/auth.py:16 | `session[key] = value` changes that key only |
| `Sessions.Session.Pop` | routers/auth.py:26 | `session.pop(key, None)` removes that key only, present or not |
| `Sessions.Session.Clear` | routers/auth.py:36 | `session.clear()` empties the session |
| `Auth.AuthorizeSpec` | routers/auth.py:13-18 | the generated state (`UrlSafeToken`: 22 URL-safe base64 characters, as `secrets.token_urlsafe(16)` gives) is stored under `oauth_state`, every other key is kept, and the browser is sent to the provider with that state |
| `Auth.OAuthAuthorize` | routers/auth.py:13-18 | the handler's answer and session are those of `AuthorizeSpec` |
| `Auth.CallbackSpec` | routers/auth.py:20-32 | a stored state that is absent, empty or different from the echoed one gives 400 and changes nothing; on a match the state is removed before the exchange; an exchange the OAuth client refuses raises (500), exactly then, with the state gone; a token is stored, and the browser sent to `/dashboard`, exactly when the exchange returns a non-empty access token, and the stored token is that one; a missing access token gives 400 with the state gone and no token set |
| `Auth.OAuthCallback` | routers/auth.py:20-32 | the handler's answer and session are those of `CallbackSpec` |
| `Auth.LogoutSpec` | routers/auth.py:34-37 | the session is emptied and the browser redirected to `/` |
| `Auth.Logout` | routers/auth.py:34-37 | the handler's answer and session are those of `LogoutSpec` |
| `Auth.LogoutProviderSpec` | routers/auth.py:39-42 | the session is emptied and the browser redirected to the provider's end-session URL |
| `Auth.LogoutProvider` | routers/auth.py:39-42 | the handler's answer and session are those of `LogoutProviderSpec` |
| `Auth.LogoutIdempotent` | routers/auth.py:34-42 | logging out twice gives the same answer and session as logging out once |
| `Auth.AuthorizeThenCallback` | routers/auth.py:13-32 | authorizing and then calling back with that state and an access token stores exactly that token, drops the state and keeps every other key |
| `Auth.ReplayRefused` | routers/auth.py:22-26 | a callback replayed after a successful one gives 400 and changes nothing |
| `Auth.ForgedStateRefused` | routers/auth.py:15-25 | after authorization, a callback echoing any other state gives 400 and leaves the session as authorization left it |
| `Auth.LoginReplayLogout` | routers/auth.py:13-37 | on one session object: authorizing sends the browser to the provider, the callback redirects to `/dashboard`, the replayed callback gives 400 and the token stays stored, and logging out redirects to `/` and empties the session |

## Left out

- Outbound HTTP to the provider's management API and token endpoint: the
  responses are inputs, and the bearer header built from the internal
  service token is not modelled. The JSON text a response decodes to is an
  independent input, not derived from the body text.
- Token decoding is an opaque `Decoder`; signature verification is not done
  by the source either. Claims whose JSON value is `null` or of an
  unexpected type (a non-numeric `exp`, a non-list `groups`) are not
  modelled; only present or absent claims are.
- `secrets.token_urlsafe(16)` is an input; the model requires only that it
  is 22 URL-safe base64 characters.
- The OAuth client library's own session entries, written by its redirect
  and read by its token exchange, are not modelled; an exchange the library
  refuses is `ExchangeError`.
- Template rendering, static files and response classes: views are
  datatype values naming the template and what it receives.
- Logging, including the device and IP fields the middleware adds, and the
  current-user lookup's role in it: log lines have no effect on answers.
- `main.py` (application set-up, middleware, session cookie settings,
  OAuth client registration), `core.py` (configuration) and
  `loggers/logger.py` (log files) are wiring and I/O.
- The async structure: handlers share no state across requests.
- A `results` entry that is present but not a list (JSON `null`, which
  makes `len(None)` raise in the user listing) is not modelled: `results` is
  either a list or absent.
- Admin.AdminUsers: requires `page >= 1`, which the framework's query
  validation enforces before the handler runs (it answers 422 otherwise).
- Admin.TotalPages: the source divides in floating point before `ceil`;
  the model uses exact integer division, which agrees for any list shorter
  than 2^53.
- Auth.CallbackSpec: an uncaught exception (`InternalError`) leaves the
  request's session as the model states, but the session cookie written
  after a 500 answer is not modelled.
- Auth.LogoutProviderSpec: the end-session URL comes from the environment;
  the model does not cover it being unset.
