/**
 * The LoginManager of login.go as mutable objects.
 *
 * `Ctx` stands for the host framework's per-request context: the session
 * keys the manager owns, the `user` slot of the context data, the cookies
 * read from the request and the response it writes into. `LoginManager`
 * holds the manager's settings, its user loader, its unauthorized handler
 * and the context it is currently bound to (rebound by `Reload` at every
 * request). Every operation is proved to take the context from one state
 * to the state the matching function of module Session describes.
 */
module Login {
  import opened Wrappers
  import opened Users
  import opened Util
  import opened Settings
  import opened Session

  /** One request's context: session, context data, request cookies and response. */
  class Ctx {
    // session keys
    var userId: Option<string>
    var isFresh: Option<bool>
    var remember: Option<string>
    // the "user" entry of the context data
    var user: Option<User>
    // the cookies the request carried (ReadCookies)
    const cookiesIn: map<string, string>
    // the response
    var cookiesOut: seq<Cookie>
    var flashes: seq<Flash>
    var redirects: seq<Redirect>
    var status: Option<int>
    // calls into handlers and into the user loader
    ghost var ran: seq<Handler>
    ghost var loads: seq<string>

    ghost function State(): Request
      reads this
    {
      Request(userId, isFresh, remember, user, cookiesIn, cookiesOut, flashes, redirects, status, ran, loads)
    }

    constructor (userId: Option<string>, isFresh: Option<bool>, remember: Option<string>,
                 cookiesIn: map<string, string>)
      ensures State() == NewRequest(userId, isFresh, remember, cookiesIn)
    {
      this.userId := userId;
      this.isFresh := isFresh;
      this.remember := remember;
      this.user := None;
      this.cookiesIn := cookiesIn;
      this.cookiesOut := [];
      this.flashes := [];
      this.redirects := [];
      this.status := None;
      this.ran := [];
      this.loads := [];
    }
  }

  class LoginManager {
    /** The context of the request being served; null until the first Reload. */
    var ctx: Ctx?
    const defaultconfig: map<string, string>
    var userLoader: string -> User
    var unauthorizedHandler: Option<Handler>
    /** Fields conf.go writes: its loader setting, the handler table and the environment settings. */
    var configuredLoader: Option<string -> User>
    var handlers: map<string, Handler>
    var env: map<string, string>

    /** The settings table is the built-in one: nothing in the manager changes it after New. */
    ghost predicate Valid()
      reads this
    {
      defaultconfig == DefaultConfig()
    }

    /** What this manager brings to every request. */
    ghost function Setup(): Session.Setup
      reads this
    {
      Session.Setup(defaultconfig, userLoader, unauthorizedHandler)
    }

    /** New, followed by the assignment of the application's user loader. */
    constructor (loader: string -> User)
      ensures Valid() && ctx == null
      ensures userLoader == loader && unauthorizedHandler.None?
      ensures configuredLoader.None? && handlers == map[] && env == map[]
    {
      ctx := null;
      defaultconfig := DefaultConfig();
      userLoader := loader;
      unauthorizedHandler := None;
      configuredLoader := None;
      handlers := map[];
      env := map[];
    }

    // -------------------------------------------------------------------
    // Start of request

    /** Bind to the request's context and, when its session has no user id, look for a remember cookie. */
    method Reload(c: Ctx)
      modifies this`ctx, c
      ensures ctx == c
      ensures c.State() == Session.Reload(old(c.State()), Setup())
      ensures old(RememberConsistent(c.State())) ==> RememberConsistent(c.State())
    {
      ctx := c;
      if ctx.userId.None? {
        LoadRemembered();
      }
    }

    method LoadRemembered()
      requires ctx != null
      modifies ctx
      ensures ctx.State() == Session.LoadRemembered(old(ctx.State()), Setup())
    {
      if Config(defaultconfig, CookieNameKey) in ctx.cookiesIn {
        ctx.isFresh := Some(false);
      }
    }

    // -------------------------------------------------------------------
    // Identity resolution

    /** The principal of this request, loaded at most once; none when no context is bound. */
    method CurrentUser() returns (u: Option<User>)
      modifies ctx
      ensures ctx == null ==> u.None?
      ensures ctx != null ==>
                ctx.State() == Session.GetUser(old(ctx.State()), Setup()) &&
                u == Some(Resolved(old(ctx.State()), Setup()))
      ensures ctx != null && old(RememberConsistent(ctx.State())) ==> RememberConsistent(ctx.State())
    {
      u := GetUser();
    }

    method GetUser() returns (u: Option<User>)
      modifies ctx
      ensures ctx == null ==> u.None?
      ensures ctx != null ==>
                ctx.State() == Session.GetUser(old(ctx.State()), Setup()) &&
                u == Some(Resolved(old(ctx.State()), Setup()))
    {
      if ctx != null {
        if ctx.user.None? {
          LoadUser();
        }
        u := ctx.user;
      } else {
        u := None;
      }
    }

    method LoadUser()
      requires ctx != null
      modifies ctx
      ensures ctx.State() == Session.LoadUser(old(ctx.State()), Setup())
    {
      ReloadUser(CurrentUserId(ctx.userId));
    }

    method ReloadUser(id: string)
      requires ctx != null
      modifies ctx
      ensures ctx.State() == Session.ReloadUser(old(ctx.State()), Setup(), id)
    {
      ctx.user := Some(userLoader(id));
      ctx.loads := ctx.loads + [id];
    }

    // -------------------------------------------------------------------
    // Login and logout

    /** Record an active principal as the fresh session identity; refuse an inactive one. */
    method LoginUser(u: User, remember: bool) returns (ok: bool)
      requires ctx != null
      modifies ctx
      ensures ok == u.active
      ensures ctx.State() == Session.LoginUser(old(ctx.State()), u, remember)
      ensures old(RememberConsistent(ctx.State())) ==> RememberConsistent(ctx.State())
    {
      if !u.active {
        return false;
      }
      ctx.userId := Some(u.id);
      ctx.isFresh := Some(true);
      if remember {
        ctx.remember := Some(SetFlag);
      }
      ctx.user := Some(u);
      return true;
    }

    /** Forget the identity and schedule the remember cookie's removal; always succeeds. */
    method LogoutUser() returns (ok: bool)
      requires ctx != null
      modifies ctx
      ensures ok
      ensures ctx.State() == Session.LogoutUser(old(ctx.State()), Setup())
      ensures RememberConsistent(ctx.State())
    {
      UnloadUser();
      return true;
    }

    method UnloadUser()
      requires ctx != null
      modifies ctx
      ensures ctx.State() == Session.LogoutUser(old(ctx.State()), Setup())
    {
      // The source stores nil in the slot; the reload below replaces it before anything reads it.
      ctx.user := None;
      ctx.userId := None;
      ctx.remember := Some(ClearFlag);
      LoadUser();
    }

    // -------------------------------------------------------------------
    // Unauthorized path

    /** Run the unauthorized handler, flash the message, then redirect or set status 401; returns no error. */
    method Unauthorized() returns (err: Option<string>)
      requires ctx != null
      modifies ctx
      ensures err.None?
      ensures ctx.State() == Session.Unauthorized(old(ctx.State()), Setup())
      ensures Valid() ==> ctx.status == Some(UnauthorizedStatus) && ctx.redirects == old(ctx.redirects)
    {
      if unauthorizedHandler.Some? {
        ctx.ran := ctx.ran + [unauthorizedHandler.value];
      }
      ctx.flashes := ctx.flashes + [Flash(Config(defaultconfig, "message_category"),
                                          Config(defaultconfig, "unauthorized_message"))];
      var url := Config(defaultconfig, "login_url");
      if url != "" {
        ctx.redirects := ctx.redirects + [Redirect(UnauthorizedStatus, url)];
      } else {
        ctx.status := Some(UnauthorizedStatus);
      }
      if Valid() {
        ManagerLookups();
      }
      return None;
    }

    // -------------------------------------------------------------------
    // End of request

    /**
     * The end-of-request middleware: the rest of the chain (`next`) runs
     * first, then a pending "set" or "clear" is carried out and the flag is
     * deleted.
     */
    method UpdateRemembered(next: Handler)
      requires ctx != null && RememberConsistent(ctx.State())
      modifies ctx
      ensures ctx.State() == Session.UpdateRemembered(old(ctx.State()), Setup(), next)
      ensures ctx.remember.None?
    {
      ctx.ran := ctx.ran + [next];
      if ctx.remember.Some? {
        var flag := ctx.remember.value;
        if flag == SetFlag {
          SetRemembered();
        } else if flag == ClearFlag {
          ClearRemembered();
        }
        ctx.remember := None;
      }
    }

    /** Write the remember cookie carrying the session's user id. */
    method SetRemembered()
      requires ctx != null && ctx.userId.Some?
      modifies ctx
      ensures ctx.State() == Session.SetRemembered(old(ctx.State()), Setup())
    {
      var name := Config(defaultconfig, CookieNameKey);
      var value := ctx.userId.value;
      var duration := CookieSeconds(Config(defaultconfig, CookieDurationKey));
      ctx.cookiesOut := ctx.cookiesOut + [Cookie(name, value, duration)];
    }

    /** Write an empty remember cookie that expires at once. */
    method ClearRemembered()
      requires ctx != null
      modifies ctx
      ensures ctx.State() == Session.ClearRemembered(old(ctx.State()), Setup())
    {
      var name := Config(defaultconfig, CookieNameKey);
      ctx.cookiesOut := ctx.cookiesOut + [Cookie(name, "", 0)];
    }
  }

  // ---------------------------------------------------------------------
  // Guards

  /**
   * The RequireLogin stage: obtain the manager for `c` (which rebinds it),
   * resolve the current user and take the unauthorized path when that user
   * is not authenticated. Later stages are not stopped.
   */
  method RequireLogin(m: LoginManager, c: Ctx)
    modifies m`ctx, c
    ensures m.ctx == c
    ensures c.State() == Session.RequireLogin(old(c.State()), m.Setup())
    ensures m.Valid() && old(c.status).None? ==>
              (c.status == Some(UnauthorizedStatus) <==>
               !Resolved(Session.Reload(old(c.State()), m.Setup()), m.Setup()).authenticated)
  {
    m.Reload(c);
    var u := m.CurrentUser();
    if !u.value.authenticated {
      var _ := m.Unauthorized();
    }
    if m.Valid() && old(c.status).None? {
      RequireLoginStatus(old(c.State()), m.Setup());
    }
  }

  /**
   * The handler LoginRequired(h) returns, applied to `c`: obtain the
   * manager for `c`, resolve the current user, and run `h` when that user
   * is authenticated, the unauthorized path otherwise.
   */
  method LoginRequired(m: LoginManager, h: Handler, c: Ctx)
    modifies m`ctx, c
    ensures m.ctx == c
    ensures c.State() == Session.LoginRequired(old(c.State()), m.Setup(), h)
  {
    m.Reload(c);
    var u := m.CurrentUser();
    if u.value.authenticated {
      c.ran := c.ran + [h];
    } else {
      var _ := m.Unauthorized();
    }
  }

  // ---------------------------------------------------------------------
  // A client

  /**
   * The simple-login scenario of login_test.go: with a loader that knows an
   * active "one" and an inactive "two", logging in "one" makes it the
   * current user at once; in a later request with an empty session,
   * logging in "two" is refused and the current user is anonymous.
   */
  method SimpleLoginScenario() returns (first: Option<User>, second: Option<User>)
    ensures first.Some? && first.value.id == "User_One" && first.value.authenticated
    ensures second == Some(AnonymousUser) && !second.value.authenticated
  {
    var one := User(true, true, false, "User_One");
    var two := User(true, false, false, "User_Two");
    var loader := (id: string) => if id == "one" then one else if id == "two" then two else AnonymousUser;
    var m := new LoginManager(loader);

    var c := new Ctx(None, None, None, map[]);
    m.Reload(c);
    var ok := m.LoginUser(one, false);
    assert ok;
    first := m.CurrentUser();
    assert first == Some(one);

    var c2 := new Ctx(None, None, None, map[]);
    m.Reload(c2);
    ok := m.LoginUser(two, true);
    assert !ok;
    second := m.CurrentUser();
  }
}
