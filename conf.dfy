/**
 * The configuration functions of conf.go: `Configuration` applies a list
 * of them to a manager in order, and `UserLoader`, `Unauthorized` and `Env`
 * build the three the source defines. A configuration is represented by
 * what it does, as the datatype `ConfigFunc`; `Other` stands for any
 * configuration function the application writes itself, of which only the
 * error it returns is modelled.
 */
module Conf {
  import opened Wrappers
  import opened Users
  import opened Util
  import opened Session
  import opened Login

  type Error = string

  // ---------------------------------------------------------------------
  // strings.Split on one separator character, and its inverse

  /** The fields of `s` between occurrences of `sep`, as strings.Split returns them. */
  function Split(s: string, sep: char): (r: seq<string>)
    ensures |r| >= 1
    ensures forall i :: 0 <= i < |r| ==> sep !in r[i]
    ensures Join(r, sep) == s
    ensures |r| >= 2 <==> sep in s
  {
    if s == [] then [""]
    else
      var rest := Split(s[1..], sep);
      if s[0] == sep then [""] + rest
      else [[s[0]] + rest[0]] + rest[1..]
  }

  /** The fields put back together with `sep` between neighbours. */
  function Join(parts: seq<string>, sep: char): string
    requires |parts| >= 1
  {
    if |parts| == 1 then parts[0] else parts[0] + [sep] + Join(parts[1..], sep)
  }

  // ---------------------------------------------------------------------
  // Env (conf.go:35-44)

  const Colon: char := ':'

  predicate HasColon(item: string) {
    Colon in item
  }

  /** The key an Env item sets: its text before the first colon, upper-cased. */
  function EnvKey(item: string): string
    requires HasColon(item)
  {
    ToUpper(Split(item, Colon)[0])
  }

  /** The value an Env item stores: its text between the first colon and the next one (or the end). */
  function EnvValue(item: string): string
    requires HasColon(item)
  {
    Split(item, Colon)[1]
  }

  /** The environment after applying `items` in order, each overwriting its key. */
  function EnvUpdate(env: map<string, string>, items: seq<string>): map<string, string>
    requires forall i :: 0 <= i < |items| ==> HasColon(items[i])
  {
    if items == [] then env
    else
      var last := items[|items| - 1];
      EnvUpdate(env, items[..|items| - 1])[EnvKey(last) := EnvValue(last)]
  }

  /** "a:b:c" stores "b" under "A": the text after a second colon is dropped. */
  lemma EnvItemExample()
    ensures HasColon("a:b:c")
    ensures EnvKey("a:b:c") == "A" && EnvValue("a:b:c") == "b"
  {
    var s := "a:b:c";
    assert s[1..] == ":b:c";
    assert s[1..][1..] == "b:c";
    assert s[1..][1..][1..] == ":c";
    assert s[1..][1..][1..][1..] == "c";
    assert s[1..][1..][1..][1..][1..] == "";
    assert Split("c", Colon) == ["c"];
    assert Split(":c", Colon) == ["", "c"];
    assert "b:c"[1..] == ":c" && ['b'] + "" == "b";
    assert Split("b:c", Colon) == ["b", "c"];
    assert Split(":b:c", Colon) == ["", "b", "c"];
    assert ['a'] + "" == "a";
    assert Split(s, Colon) == ["a", "b", "c"];
    ToUpperBy("a", "A");
  }

  /**
   * An item's key ends up holding that item's value when no later item
   * names the same key (so a later item overwrites an earlier one).
   */
  lemma {:induction false} EnvUpdateLastWins(env: map<string, string>, items: seq<string>, i: nat)
    requires forall j :: 0 <= j < |items| ==> HasColon(items[j])
    requires i < |items|
    requires forall j :: i < j < |items| ==> EnvKey(items[j]) != EnvKey(items[i])
    ensures EnvKey(items[i]) in EnvUpdate(env, items)
    ensures EnvUpdate(env, items)[EnvKey(items[i])] == EnvValue(items[i])
  {
    if i < |items| - 1 {
      var init := items[..|items| - 1];
      assert init[i] == items[i];
      forall j | i < j < |init|
        ensures EnvKey(init[j]) != EnvKey(init[i])
      {
        assert init[j] == items[j];
      }
      EnvUpdateLastWins(env, init, i);
    }
  }

  /** A key no item names keeps its old entry, or its absence. */
  lemma {:induction false} EnvUpdateOthersUnchanged(env: map<string, string>, items: seq<string>, k: string)
    requires forall j :: 0 <= j < |items| ==> HasColon(items[j])
    requires forall j :: 0 <= j < |items| ==> EnvKey(items[j]) != k
    ensures k in EnvUpdate(env, items) <==> k in env
    ensures k in env ==> EnvUpdate(env, items)[k] == env[k]
  {
    if items != [] {
      var init := items[..|items| - 1];
      forall j | 0 <= j < |init|
        ensures EnvKey(init[j]) != k
      {
        assert init[j] == items[j];
      }
      EnvUpdateOthersUnchanged(env, init, k);
    }
  }

  /** The Env configuration's loop: each item in turn sets its key in the manager's environment. */
  method ApplyEnv(l: LoginManager, items: seq<string>)
    requires forall i :: 0 <= i < |items| ==> HasColon(items[i])
    modifies l`env
    ensures l.env == EnvUpdate(old(l.env), items)
  {
    var i := 0;
    while i < |items|
      invariant 0 <= i <= |items|
      invariant l.env == EnvUpdate(old(l.env), items[..i])
    {
      var fields := Split(items[i], Colon);
      var key, value := fields[0], fields[1];
      l.env := l.env[ToUpper(key) := value];
      assert items[..i + 1][..i] == items[..i];
      i := i + 1;
    }
    assert items[..i] == items;
  }

  // ---------------------------------------------------------------------
  // Configuration functions (conf.go:9-33)

  datatype ConfigFunc =
    | UserLoader(f: string -> User)
    | Unauthorized(h: Handler)
    | Env(items: seq<string>)
    | Other(err: Option<Error>)

  /** Env with an item without a colon indexes past the fields of the split. */
  predicate Applicable(c: ConfigFunc) {
    c.Env? ==> forall i :: 0 <= i < |c.items| ==> HasColon(c.items[i])
  }

  /** The error a configuration function returns: none, except what an application's own one reports. */
  function ErrorOf(c: ConfigFunc): Option<Error> {
    if c.Other? then c.err else None
  }

  /** The manager fields conf.go writes. */
  datatype Configured = Configured(loader: Option<string -> User>, handlers: map<string, Handler>,
                                   env: map<string, string>)

  ghost function ConfiguredOf(l: LoginManager): Configured
    reads l
  {
    Configured(l.configuredLoader, l.handlers, l.env)
  }

  /** What one configuration function does to those fields. */
  function Apply(s: Configured, c: ConfigFunc): Configured
    requires Applicable(c)
  {
    match c
    case UserLoader(f) => s.(loader := Some(f))
    case Unauthorized(h) => s.(handlers := s.handlers["unauthorized" := h])
    case Env(items) => s.(env := EnvUpdate(s.env, items))
    case Other(_) => s
  }

  /** The fields after applying `cs` in order. */
  function ApplyAll(s: Configured, cs: seq<ConfigFunc>): Configured
    requires forall i :: 0 <= i < |cs| ==> Applicable(cs[i])
  {
    if cs == [] then s else Apply(ApplyAll(s, cs[..|cs| - 1]), cs[|cs| - 1])
  }

  /** UserLoader(f) installs `f` and touches nothing else; Unauthorized(h) sets only the "unauthorized" handler. */
  lemma ConstructorsTouchOneField(s: Configured, f: string -> User, h: Handler)
    ensures Apply(s, UserLoader(f)) == s.(loader := Some(f))
    ensures var s' := Apply(s, Unauthorized(h));
      && s'.loader == s.loader && s'.env == s.env
      && s'.handlers.Keys == s.handlers.Keys + {"unauthorized"}
      && s'.handlers["unauthorized"] == h
      && forall k :: k in s.handlers && k != "unauthorized" ==> s'.handlers[k] == s.handlers[k]
    ensures ErrorOf(UserLoader(f)).None? && ErrorOf(Unauthorized(h)).None?
  {
  }

  method ApplyOne(l: LoginManager, c: ConfigFunc) returns (err: Option<Error>)
    requires Applicable(c)
    modifies l`configuredLoader, l`handlers, l`env
    ensures err == ErrorOf(c)
    ensures ConfiguredOf(l) == Apply(old(ConfiguredOf(l)), c)
  {
    match c
    case UserLoader(f) =>
      l.configuredLoader := Some(f);
      err := None;
    case Unauthorized(h) =>
      l.handlers := l.handlers["unauthorized" := h];
      err := None;
    case Env(items) =>
      ApplyEnv(l, items);
      err := None;
    case Other(e) =>
      err := e;
  }

  /**
   * Configuration: apply every configuration function in order; the result
   * is the error of the last one (earlier errors are overwritten), or none
   * for an empty list.
   */
  method Configuration(l: LoginManager, cs: seq<ConfigFunc>) returns (err: Option<Error>)
    requires forall i :: 0 <= i < |cs| ==> Applicable(cs[i])
    modifies l`configuredLoader, l`handlers, l`env
    ensures err == if cs == [] then None else ErrorOf(cs[|cs| - 1])
    ensures ConfiguredOf(l) == ApplyAll(old(ConfiguredOf(l)), cs)
  {
    err := None;
    var i := 0;
    while i < |cs|
      invariant 0 <= i <= |cs|
      invariant err == if i == 0 then None else ErrorOf(cs[i - 1])
      invariant ConfiguredOf(l) == ApplyAll(old(ConfiguredOf(l)), cs[..i])
    {
      err := ApplyOne(l, cs[i]);
      assert cs[..i + 1][..i] == cs[..i];
      i := i + 1;
    }
    assert cs[..i] == cs;
  }
}
