/**
 * What one request looks like to the login manager, and what each of its
 * operations in login.go does to it, as functions of the state before.
 *
 * A `Request` gathers the session keys the manager owns (`user_id`,
 * `_fresh`, `remember`), the request-context slot `user`, the cookies the
 * request carried, and what the response has received so far (cookies
 * written, flash messages, redirects, a status). Two logs stand for calls
 * into code outside the manager: `ran`, the handlers invoked, and `loads`,
 * the ids handed to the application's user loader.
 *
 * The classes in module Login carry out these transitions on mutable
 * objects; the lemmas here state what the transitions guarantee.
 */
module Session {
  import opened Wrappers
  import opened Users
  import opened Util
  import opened Settings

  /** A request handler, known by name; running one is recorded, its effects are not modelled. */
  type Handler = string

  datatype Cookie = Cookie(name: string, value: string, maxAge: int)
  datatype Flash = Flash(category: string, message: string)
  datatype Redirect = Redirect(code: int, url: string)

  datatype Request = Request(
    userId: Option<string>,
    isFresh: Option<bool>,
    remember: Option<string>,
    user: Option<User>,
    cookiesIn: map<string, string>,
    cookiesOut: seq<Cookie>,
    flashes: seq<Flash>,
    redirects: seq<Redirect>,
    status: Option<int>,
    ran: seq<Handler>,
    loads: seq<string>)

  /** What a manager brings to a request: its settings table, user loader and unauthorized handler. */
  datatype Setup = Setup(defaults: map<string, string>, loader: string -> User, onUnauthorized: Option<Handler>)

  /** The values of the transient `remember` flag. */
  const SetFlag: string := "set"
  const ClearFlag: string := "clear"
  const UnauthorizedStatus: int := 401

  /** A request with the given session and cookies, before anything has happened in it. */
  function NewRequest(userId: Option<string>, isFresh: Option<bool>, remember: Option<string>,
                 cookiesIn: map<string, string>): Request
  {
    Request(userId, isFresh, remember, None, cookiesIn, [], [], [], None, [], [])
  }

  /**
   * The session invariant that makes the cast in setremembered safe: a
   * pending "set" always has a user id to write into the cookie.
   */
  predicate RememberConsistent(r: Request) {
    r.remember == Some(SetFlag) ==> r.userId.Some?
  }

  // ---------------------------------------------------------------------
  // Identity resolution (login.go:70-80, 100-117)

  /** currentuserid: the session's user id, or "" when there is none. */
  function CurrentUserId(userId: Option<string>): (r: string)
    ensures userId.Some? ==> r == userId.value
    ensures userId.None? ==> r == AnonymousUser.id
  {
    userId.GetOr("")
  }

  /** reloaduser: cache the loader's principal for `id`. */
  function ReloadUser(r: Request, s: Setup, id: string): Request {
    r.(user := Some(s.loader(id)), loads := r.loads + [id])
  }

  /** loaduser: reload for the session's current user id. */
  function LoadUser(r: Request, s: Setup): Request {
    ReloadUser(r, s, CurrentUserId(r.userId))
  }

  /** getuser: load only when nothing is cached; the caller then reads the cache. */
  function GetUser(r: Request, s: Setup): (r': Request)
    ensures r'.user.Some?
  {
    if r.user.Some? then r else LoadUser(r, s)
  }

  /** The principal getuser (and so CurrentUser) returns. */
  function Resolved(r: Request, s: Setup): User {
    GetUser(r, s).user.value
  }

  // ---------------------------------------------------------------------
  // Login and logout (login.go:82-98, 119-124)

  /** LoginUser: refuse an inactive principal; otherwise record it as the fresh session identity. */
  function LoginUser(r: Request, u: User, remember: bool): Request {
    if !u.active then r
    else r.(userId := Some(u.id), isFresh := Some(true),
            remember := if remember then Some(SetFlag) else r.remember,
            user := Some(u))
  }

  /** LogoutUser / unloaduser: forget the identity, schedule the cookie's removal, resolve afresh. */
  function LogoutUser(r: Request, s: Setup): Request {
    LoadUser(r.(user := None, userId := None, remember := Some(ClearFlag)), s)
  }

  // ---------------------------------------------------------------------
  // Start of request (login.go:49-54, 152-158)

  /** loadremembered: a remember cookie marks the session as not fresh. */
  function LoadRemembered(r: Request, s: Setup): Request {
    if Config(s.defaults, CookieNameKey) in r.cookiesIn then r.(isFresh := Some(false)) else r
  }

  /** Reload: look for a remember cookie only when the session has no user id. */
  function Reload(r: Request, s: Setup): Request {
    if r.userId.None? then LoadRemembered(r, s) else r
  }

  // ---------------------------------------------------------------------
  // End of request (login.go:139-150, 168-181)

  /** The cookie setremembered writes: the session's user id, for the configured duration. */
  function RememberCookie(s: Setup, id: string): Cookie {
    Cookie(Config(s.defaults, CookieNameKey), id, CookieSeconds(Config(s.defaults, CookieDurationKey)))
  }

  /** The cookie clearremembered writes: empty and already expired. */
  function ClearCookie(s: Setup): Cookie {
    Cookie(Config(s.defaults, CookieNameKey), "", 0)
  }

  function SetRemembered(r: Request, s: Setup): Request
    requires r.userId.Some?
  {
    r.(cookiesOut := r.cookiesOut + [RememberCookie(s, r.userId.value)])
  }

  function ClearRemembered(r: Request, s: Setup): Request {
    r.(cookiesOut := r.cookiesOut + [ClearCookie(s)])
  }

  /**
   * updateremembered: the rest of the chain (`next`) runs first; then a
   * pending "set" or "clear" is acted on, and any pending flag is deleted.
   */
  function UpdateRemembered(r: Request, s: Setup, next: Handler): Request
    requires RememberConsistent(r)
  {
    var r1 := r.(ran := r.ran + [next]);
    match r1.remember
    case None => r1
    case Some(flag) =>
      var r2 := if flag == SetFlag then SetRemembered(r1, s)
                else if flag == ClearFlag then ClearRemembered(r1, s)
                else r1;
      r2.(remember := None)
  }

  // ---------------------------------------------------------------------
  // Guards (login.go:126-137, 185-206)

  /**
   * unauthorized: run the registered handler if any, flash the configured
   * message, then redirect to the login URL when one is configured and set
   * status 401 otherwise.
   */
  function Unauthorized(r: Request, s: Setup): Request {
    var r1 := if s.onUnauthorized.Some? then r.(ran := r.ran + [s.onUnauthorized.value]) else r;
    var r2 := r1.(flashes := r1.flashes + [Flash(Config(s.defaults, "message_category"),
                                                 Config(s.defaults, "unauthorized_message"))]);
    var url := Config(s.defaults, "login_url");
    if url != "" then r2.(redirects := r2.redirects + [Redirect(UnauthorizedStatus, url)])
    else r2.(status := Some(UnauthorizedStatus))
  }

  /** RequireLogin: bind the manager (Reload), resolve the user, and take the unauthorized path if unauthenticated. */
  function RequireLogin(r: Request, s: Setup): Request {
    var r1 := GetUser(Reload(r, s), s);
    if r1.user.value.authenticated then r1 else Unauthorized(r1, s)
  }

  /** LoginRequired(h): as RequireLogin, but run `h` when the user is authenticated. */
  function LoginRequired(r: Request, s: Setup, h: Handler): Request {
    var r1 := GetUser(Reload(r, s), s);
    if r1.user.value.authenticated then r1.(ran := r1.ran + [h]) else Unauthorized(r1, s)
  }

  // =====================================================================
  // Properties

  /** An inactive principal is refused and nothing changes. */
  lemma LoginInactiveChangesNothing(r: Request, u: User, remember: bool)
    requires !u.active
    ensures LoginUser(r, u, remember) == r
  {
  }

  /** The anonymous principal can never log in. */
  lemma AnonymousCannotLogIn(r: Request, remember: bool)
    ensures LoginUser(r, AnonymousUser, remember) == r
  {
    AnonymousUserCapabilities();
    LoginInactiveChangesNothing(r, AnonymousUser, remember);
  }

  /**
   * An active principal becomes the fresh session identity and the cached
   * user; the flag is set only when remembering, and nothing else moves.
   */
  lemma LoginActive(r: Request, u: User, remember: bool)
    requires u.active
    ensures var r' := LoginUser(r, u, remember);
      && r'.userId == Some(u.id) && r'.isFresh == Some(true) && r'.user == Some(u)
      && (remember ==> r'.remember == Some(SetFlag))
      && (!remember ==> r'.remember == r.remember)
      && r'.(userId := r.userId, isFresh := r.isFresh, remember := r.remember, user := r.user) == r
  {
  }

  /** The loader runs only when nothing is cached, and then exactly once, for currentuserid. */
  lemma GetUserMemoises(r: Request, s: Setup)
    ensures r.user.Some? ==> GetUser(r, s) == r && Resolved(r, s) == r.user.value
    ensures r.user.None? ==>
              GetUser(r, s).loads == r.loads + [CurrentUserId(r.userId)] &&
              Resolved(r, s) == s.loader(CurrentUserId(r.userId))
    ensures GetUser(GetUser(r, s), s) == GetUser(r, s)
  {
  }

  /** A missing user id reads as "", which is also the anonymous principal's id. */
  lemma MissingIdIsAnonymousId()
    ensures CurrentUserId(None) == "" == AnonymousUser.id
    ensures forall id :: CurrentUserId(Some(id)) == id
  {
  }

  /** Right after a successful login the current user is that user, with no loader call. */
  lemma LoginThenCurrentUser(r: Request, s: Setup, u: User, remember: bool)
    requires u.active
    ensures Resolved(LoginUser(r, u, remember), s) == u
    ensures GetUser(LoginUser(r, u, remember), s).loads == r.loads
  {
  }

  /**
   * After logout, for any loader, the user id is gone, the cookie is
   * scheduled for removal, freshness is untouched and the cached user is
   * what the loader answers for "", asked once; with a loader that answers
   * the anonymous principal for "", the current user is anonymous.
   */
  lemma LogoutThenAnonymous(r: Request, s: Setup)
    ensures var r' := LogoutUser(r, s);
      && r'.userId.None? && r'.remember == Some(ClearFlag)
      && r'.isFresh == r.isFresh
      && r'.user == Some(s.loader(""))
      && r'.loads == r.loads + [""]
      && GetUser(r', s) == r'
    ensures var r' := LogoutUser(r, s);
      s.loader("") == AnonymousUser ==>
        && Resolved(r', s) == AnonymousUser
        && !Resolved(r', s).authenticated && Resolved(r', s).anonymous
  {
  }

  /** Logging in and then out leaves the session as logout leaves any session. */
  lemma LoginThenLogout(r: Request, s: Setup, u: User, remember: bool)
    requires s.loader("") == AnonymousUser
    ensures var r' := LogoutUser(LoginUser(r, u, remember), s);
      && r'.userId.None? && r'.remember == Some(ClearFlag)
      && !Resolved(r', s).authenticated && Resolved(r', s).anonymous
  {
    LogoutThenAnonymous(LoginUser(r, u, remember), s);
  }

  /** Every operation keeps the remember flag consistent with the user id. */
  lemma OperationsKeepRememberConsistent(r: Request, s: Setup, u: User, remember: bool, h: Handler)
    requires RememberConsistent(r)
    ensures RememberConsistent(LoginUser(r, u, remember))
    ensures RememberConsistent(LogoutUser(r, s))
    ensures RememberConsistent(GetUser(r, s))
    ensures RememberConsistent(Reload(r, s))
    ensures RememberConsistent(UpdateRemembered(r, s, h))
    ensures RememberConsistent(Unauthorized(r, s))
    ensures RememberConsistent(RequireLogin(r, s))
    ensures RememberConsistent(LoginRequired(r, s, h))
  {
  }

  /** Reload touches only `_fresh`, and only when the session has no user id and the cookie is present. */
  lemma ReloadRestoresFreshnessOnly(r: Request, s: Setup)
    ensures var r' := Reload(r, s);
      && r'.userId == r.userId
      && r'.(isFresh := r.isFresh) == r
      && (r.userId.Some? ==> r' == r)
      && (r'.isFresh != r.isFresh ==> r'.isFresh == Some(false))
      && (r.userId.None? ==> (r'.isFresh == Some(false) <==>
                               r.isFresh == Some(false) || Config(s.defaults, CookieNameKey) in r.cookiesIn))
  {
  }

  /**
   * End of request: "set" writes exactly the remember cookie, "clear"
   * exactly the expired one, any other value nothing; a present flag is
   * then gone, an absent one leaves the session alone. The handler chain
   * runs first in every case.
   */
  lemma UpdateRememberedCookies(r: Request, s: Setup, next: Handler)
    requires RememberConsistent(r)
    ensures var r' := UpdateRemembered(r, s, next);
      && r'.ran == r.ran + [next]
      && r'.remember == None
      && (r.remember == Some(SetFlag) ==> r'.cookiesOut == r.cookiesOut + [RememberCookie(s, r.userId.value)])
      && (r.remember == Some(ClearFlag) ==> r'.cookiesOut == r.cookiesOut + [ClearCookie(s)])
      && (r.remember.None? || r.remember.value !in {SetFlag, ClearFlag} ==> r'.cookiesOut == r.cookiesOut)
      && r'.(cookiesOut := r.cookiesOut, remember := r.remember, ran := r.ran) == r
  {
  }

  /** With the built-in settings the two cookies are ("remember_token", id, 31 days) and ("remember_token", "", 0). */
  lemma DefaultCookies(s: Setup, id: string)
    requires s.defaults == DefaultConfig()
    ensures RememberCookie(s, id) == Cookie(DefaultCookieName, id, 2678400)
    ensures ClearCookie(s) == Cookie(DefaultCookieName, "", 0)
  {
    ManagerLookups();
    CookieSecondsDefaults("");
  }

  /**
   * Remember-me round trip: logging in with remember, then finishing the
   * request, writes one cookie named per the settings carrying the user's
   * id; a later request whose session has no user id but carries that
   * cookie is marked not fresh. The user id is not restored from the
   * cookie, so that request still resolves the loader's answer for "".
   */
  lemma RememberRoundTrip(r: Request, s: Setup, u: User, next: Handler, later: Request)
    requires RememberConsistent(r) && u.active
    requires later.userId.None? && later.user.None?
    requires later.cookiesIn == map[RememberCookie(s, u.id).name := RememberCookie(s, u.id).value]
    ensures var r' := UpdateRemembered(LoginUser(r, u, true), s, next);
      && r'.cookiesOut == r.cookiesOut + [RememberCookie(s, u.id)]
      && RememberCookie(s, u.id).value == u.id
      && r'.remember.None? && r'.userId == Some(u.id)
    ensures var l' := Reload(later, s);
      && l'.isFresh == Some(false) && l'.userId.None?
      && Resolved(l', s) == s.loader("")
  {
    UpdateRememberedCookies(LoginUser(r, u, true), s, next);
  }

  /** With the built-in settings there is no login URL, so the unauthorized path always ends in status 401. */
  lemma UnauthorizedSets401(r: Request, s: Setup)
    requires s.defaults == DefaultConfig()
    ensures var r' := Unauthorized(r, s);
      && r'.status == Some(UnauthorizedStatus)
      && r'.redirects == r.redirects
      && r'.flashes == r.flashes + [Flash(DefaultMessageCategory, DefaultUnauthorizedMessage)]
      && r'.ran == r.ran + (if s.onUnauthorized.Some? then [s.onUnauthorized.value] else [])
  {
    ManagerLookups();
  }

  /**
   * LoginRequired(h) runs `h`, once, exactly when the resolved user is
   * authenticated; otherwise `h` is not run and the unauthorized path is
   * taken (status 401 with the built-in settings).
   */
  lemma LoginRequiredRunsHandlerIffAuthenticated(r: Request, s: Setup, h: Handler)
    requires s.defaults == DefaultConfig()
    ensures var r1 := GetUser(Reload(r, s), s);
      var r' := LoginRequired(r, s, h);
      && (r1.user.value.authenticated ==> r'.ran == r1.ran + [h] && r'.status == r.status)
      && (!r1.user.value.authenticated ==>
            r'.ran == r1.ran + (if s.onUnauthorized.Some? then [s.onUnauthorized.value] else [])
            && r'.status == Some(UnauthorizedStatus))
  {
    var r1 := GetUser(Reload(r, s), s);
    if !r1.user.value.authenticated {
      UnauthorizedSets401(r1, s);
    }
  }

  /** RequireLogin ends in status 401 exactly when the resolved user is not authenticated; it never stops the chain. */
  lemma RequireLoginStatus(r: Request, s: Setup)
    requires s.defaults == DefaultConfig() && r.status.None?
    ensures var r1 := GetUser(Reload(r, s), s);
      RequireLogin(r, s).status == Some(UnauthorizedStatus) <==> !r1.user.value.authenticated
  {
    var r1 := GetUser(Reload(r, s), s);
    if !r1.user.value.authenticated {
      UnauthorizedSets401(r1, s);
    }
  }

  /**
   * A first request with an empty session and no cookies, under a loader
   * that answers the anonymous principal for "", is refused by
   * LoginRequired: the handler does not run and the status is 401.
   */
  lemma AnonymousRequestIsRefused(s: Setup, h: Handler)
    requires s.defaults == DefaultConfig() && s.loader("") == AnonymousUser
    requires s.onUnauthorized.None?
    ensures var r' := LoginRequired(NewRequest(None, None, None, map[]), s, h);
      r'.ran == [] && r'.status == Some(UnauthorizedStatus)
  {
    LoginRequiredRunsHandlerIffAuthenticated(NewRequest(None, None, None, map[]), s, h);
  }
}
