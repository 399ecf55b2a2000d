/**
 * The manager's built-in settings (login.go:32-40) and their lookup by key
 * (login.go:60-68). The lookup upper-cases the key before consulting the
 * table, and a missing key reads as the empty string. The environment
 * override layer is disabled in the source and has no counterpart here.
 */
module Settings {
  import opened Util

  const CookieNameKey: string := "COOKIE_NAME"
  const CookieDurationKey: string := "COOKIE_DURATION"
  const MessageCategoryKey: string := "MESSAGE_CATEGORY"
  const RefreshMessageKey: string := "REFRESH_MESSAGE"
  const UnauthorizedMessageKey: string := "UNAUTHORIZED_MESSAGE"

  const DefaultCookieName: string := "remember_token"
  const DefaultCookieDuration: string := "31"
  const DefaultMessageCategory: string := "message"
  const DefaultRefreshMessage: string := "Please reauthenticate to access this page."
  const DefaultUnauthorizedMessage: string := "Please log in to access this page"

  /** The table `New` installs: five upper-case keys and their values. */
  function DefaultConfig(): (m: map<string, string>)
    ensures m.Keys == {CookieNameKey, CookieDurationKey, MessageCategoryKey,
                       RefreshMessageKey, UnauthorizedMessageKey}
  {
    map[CookieNameKey := DefaultCookieName,
        CookieDurationKey := DefaultCookieDuration,
        MessageCategoryKey := DefaultMessageCategory,
        RefreshMessageKey := DefaultRefreshMessage,
        UnauthorizedMessageKey := DefaultUnauthorizedMessage]
  }

  /** The setting stored under the upper-cased `key`, or "" when there is none. */
  function Config(defaults: map<string, string>, key: string): (r: string)
    ensures r == "" || r in defaults.Values
    ensures ToUpper(key) !in defaults ==> r == ""
  {
    if ToUpper(key) in defaults then defaults[ToUpper(key)] else ""
  }

  /** The lookup ignores the case of the key. */
  lemma ConfigCaseInsensitive(defaults: map<string, string>, key: string)
    ensures Config(defaults, key) == Config(defaults, ToUpper(key))
  {
    ToUpperIdempotent(key);
  }

  /**
   * Over the built-in table, any spelling of a built-in key finds its value,
   * and any other key (such as "login_url") finds nothing.
   */
  lemma DefaultConfigLookup(key: string)
    ensures ToUpper(key) == CookieNameKey ==> Config(DefaultConfig(), key) == DefaultCookieName
    ensures ToUpper(key) == CookieDurationKey ==> Config(DefaultConfig(), key) == DefaultCookieDuration
    ensures ToUpper(key) == MessageCategoryKey ==> Config(DefaultConfig(), key) == DefaultMessageCategory
    ensures ToUpper(key) == RefreshMessageKey ==> Config(DefaultConfig(), key) == DefaultRefreshMessage
    ensures ToUpper(key) == UnauthorizedMessageKey ==>
              Config(DefaultConfig(), key) == DefaultUnauthorizedMessage
    ensures ToUpper(key) !in DefaultConfig().Keys ==> Config(DefaultConfig(), key) == ""
  {
  }

  /** The keys the manager reads, spelled as login.go spells them, resolve as follows. */
  lemma ManagerLookups()
    ensures Config(DefaultConfig(), "COOKIE_NAME") == DefaultCookieName
    ensures Config(DefaultConfig(), "COOKIE_DURATION") == DefaultCookieDuration
    ensures Config(DefaultConfig(), "message_category") == DefaultMessageCategory
    ensures Config(DefaultConfig(), "unauthorized_message") == DefaultUnauthorizedMessage
    ensures Config(DefaultConfig(), "login_url") == ""
  {
    assert Config(DefaultConfig(), "COOKIE_NAME") == DefaultCookieName by {
      ToUpperFixesUpperCase(CookieNameKey);
    }
    assert Config(DefaultConfig(), "COOKIE_DURATION") == DefaultCookieDuration by {
      ToUpperFixesUpperCase(CookieDurationKey);
    }
    assert Config(DefaultConfig(), "message_category") == DefaultMessageCategory by {
      ToUpperBy("message_category", MessageCategoryKey);
    }
    assert Config(DefaultConfig(), "unauthorized_message") == DefaultUnauthorizedMessage by {
      ToUpperBy("unauthorized_message", UnauthorizedMessageKey);
    }
    assert Config(DefaultConfig(), "login_url") == "" by {
      ToUpperBy("login_url", "LOGIN_URL");
      DefaultConfigLookup("login_url");
    }
  }
}
