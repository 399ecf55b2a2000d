# A verified model of the `login` session manager

The `login` package gives a web application built on the flotilla framework
a per-request authentication state machine, the `LoginManager`. Each request
binds the manager to its context (`Reload`). Without a `user_id` in the
session, the manager looks for a remember-me cookie. Handlers resolve the
current principal once per request through the application's user loader
(`CurrentUser`). `LoginUser` and `LogoutUser` write the session keys
`user_id`, `_fresh` and `remember`. At the end of the request, a middleware
turns the transient `remember` flag into a remember cookie or its removal.
Two guards, `RequireLogin` and `LoginRequired`, send unauthenticated
requests down the unauthorized path: a flash message, then status 401.

The model has seven Dafny modules:

- `Wrappers` (wrappers.dfy): `Option`, for session keys and context slots
  that may be absent.
- `Users` (users.dfy): the principal contract of user.go as a datatype, and
  the `AnonymousUser` constant.
- `Util` (util.go → util.dfy): `storekey` and `cookieseconds`, plus the Go
  library behaviour they rely on: ASCII upper-casing, `strconv.Atoi`
  (optional sign, decimal digits, 64-bit range), 64-bit wrap-around and
  division that truncates toward zero.
- `Settings` (settings.dfy): the built-in settings table (`defaultconfig`)
  and the case-insensitive lookup `config` from login.go.
- `Session` (session.dfy): a request as a value. It holds the session keys,
  the context's `user` slot, the request cookies and the response
  (cookies written, flashes, redirects, status). It also holds two logs:
  the handlers that ran and the ids passed to the user loader. Each
  operation of login.go is a function from the state before to the state
  after. The lemmas state what the operations guarantee.
- `Login` (login.dfy): the classes `Ctx` (the request context, mutated in
  place) and `LoginManager`, with the two guards. Each method is proved to
  move the context exactly as the matching `Session` function says.
- `Conf` (conf.dfy): the configuration functions of conf.go, `Split` (the
  single-character `strings.Split`) and the loops of `Env` and
  `Configuration`.

### Behaviour worth knowing

- `loadremembered` (login.go:152-158) only sets `_fresh = false` when the
  remember cookie is present. It never copies the cookie into `user_id`,
  so a request restored from the cookie still resolves the loader's answer
  for `""` (`Session.RememberRoundTrip`).
- `LoginUser` has no `fresh` parameter and always sets `_fresh = true`.
- `unauthorized` redirects with code 401 (login.go:132). With the built-in
  settings there is no `login_url`, so it always sets status 401.
- There is no refresh path: `NeedsRefresh`, `Refresh` and
  `RefreshRequired` do not exist, and login.go:208-209 is commented out.
- `RequireLogin` is documented as aborting, but it only takes the
  unauthorized path. Nothing here stops later handlers.
- conf.go writes `userloader` and `Handlers["unauthorized"]`. login.go
  reads `UserLoader` and `UnauthorizedHandler`. These are separate fields
  in the model (`configuredLoader`/`handlers` and
  `userLoader`/`unauthorizedHandler`), so a configuration does not change
  which loader or handler a request uses.
- `storekey` and `cookieseconds` appear both in login.go and in util.go,
  with identical text. Each is modelled once, in `Util`.
- The tests call `Loginuser` and `Currentuser`. These names do not exist;
  the model uses `LoginUser` and `CurrentUser`.

## Model

| member | source | states |
|---|---|---|
| `Users.AnonymousUserCapabilities` | user.go:14-28 | the anonymous principal is not authenticated, not active, anonymous, and its id is "" |
| `Util.ToUpperIdempotent` | util.go:11 | upper-casing twice is the same as upper-casing once |
| `Util.StoreKey` | util.go:10-12 | a store key is "LOGIN_" followed by the key upper-cased: same length plus six, no lower-case letter, every other character kept in place |
| `Util.StoreKeyCaseInsensitive` | util.go:10-12 | storekey(k) == storekey(ToUpper(k)) |
| `Util.StoreKeyShape` | util.go:10-12 | keys equal up to case share a store key, which starts with "LOGIN_" and has no lower-case letter |
| `Util.Atoi` | util.go:15 | an accepted string is a digit, or a sign or digit followed by one or more digits only, and its value fits in 64 bits |
| `Util.AtoiSignedDigits` | util.go:15 | conversely, an optional "+" or "-" followed by one or more digits (leading zeros allowed) is accepted with its signed decimal value exactly when that value fits in 64 bits |
| `Util.AtoiItoa` | util.go:15 | Atoi reads back every 64-bit integer written in decimal |
| `Util.AtoiRejectsBlank` | util.go:15-18 | Atoi rejects the empty string, a lone "+" or "-", and any string containing a blank |
| `Util.WrapInt64` | util.go:19 | the 64-bit wrap-around stays in range, is congruent mod 2^64, and leaves in-range values alone |
| `Util.CookieSeconds` | util.go:14-20 | rejected text gives 31 days in seconds; an accepted day count n with abs(n) <= 106751 gives n * 86400 |
| `Util.CookieSecondsOfDays` | util.go:14-20 | a day count written in decimal converts to that many days of seconds |
| `Util.CookieSecondsMonotonic` | util.go:19 | for accepted day counts within range, more days never give fewer seconds |
| `Util.CookieSecondsDefaults` | util.go:15-19 | "0" gives 0; "31" and any rejected text both give 2678400 |
| `Settings.DefaultConfig` | login.go:32-40 | the built-in table has exactly the five upper-case keys |
| `Settings.Config` | login.go:60-68 | a lookup gives "" or one of the table's values, and "" whenever the upper-cased key is not in the table |
| `Settings.ConfigCaseInsensitive` | login.go:60-68 | config(k) == config(ToUpper(k)) for any table |
| `Settings.DefaultConfigLookup` | login.go:60-68 | any spelling of each of the five built-in keys finds its value; any key whose upper-cased form is not a built-in key finds "" |
| `Settings.ManagerLookups` | login.go:32-68 | the manager's lookups give "remember_token", "31", "message", the unauthorized message, and "" for "login_url" |
| `Session.LoginInactiveChangesNothing` | login.go:82-85 | LoginUser of an inactive principal leaves the whole request state unchanged |
| `Session.AnonymousCannotLogIn` | login.go:82-85 | LoginUser(AnonymousUser, _) changes nothing |
| `Session.LoginActive` | login.go:86-92 | an active login sets user_id to the id, _fresh to true and the cached user; it sets remember to "set" only when asked and changes nothing else |
| `Session.GetUserMemoises` | login.go:100-117 | the loader runs only when no user is cached, then exactly once, for currentuserid; a second resolution changes nothing |
| `Session.CurrentUserId` | login.go:70-76 | the id is the session's user_id when there is one, and the anonymous principal's id otherwise |
| `Session.MissingIdIsAnonymousId` | login.go:70-76 | currentuserid is "" without a user_id, which is the anonymous id, and otherwise the stored id |
| `Session.LoginThenCurrentUser` | login.go:78-93 | right after an active login, the current user is that principal and the loader is not called |
| `Session.LogoutThenAnonymous` | login.go:95-124 | for any loader, after logout user_id is gone, remember is "clear", _fresh is untouched and the cached user is the loader's answer for "", asked once; with a loader mapping "" to AnonymousUser, the current user is anonymous and unauthenticated |
| `Session.LoginThenLogout` | login.go:82-124 | with a loader that answers AnonymousUser for "", login followed by logout ends with no user_id, an anonymous and unauthenticated current user, and the remember cookie scheduled for removal |
| `Session.OperationsKeepRememberConsistent` | login.go:86-89 | every operation keeps "remember is set only with a user_id", so the cast in setremembered cannot fail |
| `Session.ReloadRestoresFreshnessOnly` | login.go:49-54 | Reload changes only _fresh, and only to false when there is no user_id and the remember cookie is present |
| `Session.UpdateRememberedCookies` | login.go:139-150 | after the chain runs, "set" writes exactly the remember cookie, "clear" the expired one, anything else nothing; a present flag is deleted |
| `Session.DefaultCookies` | login.go:168-181 | with the built-in settings the cookies are ("remember_token", id, 2678400) and ("remember_token", "", 0) |
| `Session.RememberRoundTrip` | login.go:139-174 | a remembered login writes one cookie carrying the user's id; a later request showing it is marked not fresh and keeps no user_id |
| `Session.UnauthorizedSets401` | login.go:126-137 | with the built-in settings the unauthorized path flashes the message, runs the handler if one is set, and sets status 401 with no redirect |
| `Session.LoginRequiredRunsHandlerIffAuthenticated` | login.go:194-206 | with the built-in settings, the wrapped handler runs exactly once when the resolved user is authenticated; otherwise it does not run and the status is 401 |
| `Session.RequireLoginStatus` | login.go:183-192 | with the built-in settings and no status set earlier, RequireLogin ends in status 401 exactly when the resolved user is not authenticated |
| `Session.AnonymousRequestIsRefused` | login_test.go:91-98 | a first request with no session and no cookie is refused by LoginRequired with 401, and its handler does not run |
| `Login.LoginManager.constructor` | login.go:22-24 | a new manager holds the built-in settings and is bound to no request |
| `Login.LoginManager.Reload` | login.go:49-54 | binds the manager to the request and applies Session.Reload to it |
| `Login.LoginManager.LoadRemembered` | login.go:152-158 | applies Session.LoadRemembered to the bound request |
| `Login.LoginManager.CurrentUser` | login.go:78-80 | returns the memoised principal and applies Session.GetUser; returns none when no request is bound |
| `Login.LoginManager.GetUser` | login.go:100-109 | loads only when no user is cached, then returns the cached principal |
| `Login.LoginManager.LoadUser` | login.go:111-113 | reloads for currentuserid |
| `Login.LoginManager.ReloadUser` | login.go:115-117 | caches the loader's principal for the id and logs the loader call |
| `Login.LoginManager.LoginUser` | login.go:82-93 | returns whether the user is active and applies Session.LoginUser; keeps the remember invariant |
| `Login.LoginManager.LogoutUser` | login.go:95-98 | always returns true and applies Session.LogoutUser |
| `Login.LoginManager.UnloadUser` | login.go:119-124 | clears the slot and user_id, sets remember to "clear" and resolves again |
| `Login.LoginManager.Unauthorized` | login.go:126-137 | returns no error and applies Session.Unauthorized; with the built-in settings the status is 401 and there is no redirect |
| `Login.LoginManager.UpdateRemembered` | login.go:139-150 | applies Session.UpdateRemembered and leaves no remember flag |
| `Login.LoginManager.SetRemembered` | login.go:168-174 | appends the remember cookie carrying user_id |
| `Login.LoginManager.ClearRemembered` | login.go:176-181 | appends the empty, already-expired remember cookie |
| `Login.RequireLogin` | login.go:183-192 | rebinds the manager and applies Session.RequireLogin; with the built-in settings and no status set earlier, the status becomes 401 exactly when the user is unauthenticated |
| `Login.LoginRequired` | login.go:194-206 | rebinds the manager and applies Session.LoginRequired |
| `Login.SimpleLoginScenario` | login_test.go:110-125 | with a loader knowing an active "one" and an inactive "two", logging in "one" makes it the current, authenticated user at once, as the test checks; extending the test, in a fresh request, after a login attempt for "two", the current user is the anonymous principal (the attempt was refused) |
| `Conf.Split` | conf.go:38 | the fields contain no separator, join back to the input, and there are two or more exactly when the separator occurs |
| `Conf.EnvItemExample` | conf.go:37-40 | "a:b:c" stores "b" under "A" |
| `Conf.EnvUpdateLastWins` | conf.go:37-40 | a key ends up with the value of the last item naming it |
| `Conf.EnvUpdateOthersUnchanged` | conf.go:37-40 | a key no item names keeps its entry, or stays absent |
| `Conf.ApplyEnv` | conf.go:35-44 | the manager's environment becomes the ordered update by all items |
| `Conf.ConstructorsTouchOneField` | conf.go:21-33 | UserLoader(f) installs only the loader; Unauthorized(h) sets only handlers["unauthorized"]; both return no error |
| `Conf.ApplyOne` | conf.go:16 | applies one configuration function and returns its error |
| `Conf.Configuration` | conf.go:13-19 | applies every configuration in order and returns the last one's error, or none for an empty list |

## Left out

- The flotilla framework: `Init`, `Use`, `Configure`, the context
  functions (`loginctxfuncs`), the `c.Call("loginmanager", c)` registry
  and its type assertions. These are foreign calls. The guards model the
  registry call as the `Reload` it performs. `c.Next()` is modelled only
  as "the next handler ran before the end-of-request step".
- Handlers: running one is recorded in a log. What a handler does to the
  request is not modelled.
- `ReadCookies` and `SecureCookie`: the request cookies are an input map
  and the written cookies an output log. Signing and encryption are not
  modelled.
- `Flash`, `Redirect` and `Status` are only recorded. Their effect on the
  HTTP response is not modelled.
- The debug `fmt.Printf` in `loadremembered`.
- Concurrency: the manager's `ctx` field is shared across requests. The
  model serves one request at a time, and `UpdateRemembered` works on the
  context the manager is bound to.
- `Login.LoginManager.UnloadUser`: the source briefly stores nil in the
  `user` slot, and the model stores "absent". The reload right after it
  overwrites the slot before anything reads it.
- `Login.LoginManager.constructor` takes the user loader. The source's
  `New` leaves it nil, and the application assigns it right after. A nil
  loader, which would panic when called, is not modelled.
- `Conf.ApplyEnv`: an item without a colon makes the source index out of
  range, which is a panic. The model makes "every item has a colon" a
  precondition. Writing into a nil `Env` or `Handlers` map is not
  modelled either; both start empty.
- `Conf.ApplyOne`: a configuration function the application writes itself
  is modelled only by the error it returns. Its effect on the manager is
  not modelled.
- `Util.ToUpper` upper-cases ASCII letters only. Go's `strings.ToUpper`
  also maps other Unicode letters.
- Refresh and freshness guards, the `LOGIN_`-prefixed environment
  override layer and `COOKIE_PATH` do not exist in the code (or are
  commented out there), so they are not modelled.
- No session-restoration handlers (cookie, request, token or header) exist
  for `Reload` to run. The `Handlers` map that conf.go writes is kept as
  the field `handlers`, which nothing in the code reads.
