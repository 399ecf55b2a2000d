/**
 * The string and number helpers of util.go: the environment store key and
 * the conversion of a remember-cookie duration in days to seconds, together
 * with the pieces of Go's standard library they rest on (upper-casing,
 * decimal parsing, 64-bit arithmetic).
 */
module Util {
  import opened Wrappers

  // ---------------------------------------------------------------------
  // Upper-casing (strings.ToUpper, restricted to ASCII letters)

  predicate IsLower(c: char) {
    'a' <= c <= 'z'
  }

  function UpperChar(c: char): char {
    if IsLower(c) then (c as int - 32) as char else c
  }

  /** No character of `s` is a lower-case letter. */
  predicate IsUpperCase(s: string) {
    forall i :: 0 <= i < |s| ==> !IsLower(s[i])
  }

  /** Every character mapped by `UpperChar`, in place. */
  function ToUpper(s: string): string {
    seq(|s|, i requires 0 <= i < |s| => UpperChar(s[i]))
  }

  /** Upper-casing keeps the length and leaves no lower-case letter. */
  lemma ToUpperIsUpperCase(s: string)
    ensures |ToUpper(s)| == |s|
    ensures IsUpperCase(ToUpper(s))
  {
  }

  /** Upper-casing a string without lower-case letters leaves it as it is. */
  lemma ToUpperFixesUpperCase(s: string)
    requires IsUpperCase(s)
    ensures ToUpper(s) == s
  {
  }

  /** A string whose characters are those of `s` upper-cased is ToUpper(s). */
  lemma ToUpperBy(s: string, t: string)
    requires |s| == |t|
    requires forall i :: 0 <= i < |s| ==> UpperChar(s[i]) == t[i]
    ensures ToUpper(s) == t
  {
  }

  /** Upper-casing twice is upper-casing once. */
  lemma ToUpperIdempotent(s: string)
    ensures ToUpper(ToUpper(s)) == ToUpper(s)
  {
    ToUpperIsUpperCase(s);
    ToUpperFixesUpperCase(ToUpper(s));
  }

  // ---------------------------------------------------------------------
  // storekey (util.go:10-12)

  const StorePrefix: string := "LOGIN_"

  /** The key under which an application environment would hold a login setting. */
  function StoreKey(key: string): (r: string)
    ensures |r| == |StorePrefix| + |key| && r[..|StorePrefix|] == StorePrefix
    ensures IsUpperCase(r)
    ensures forall i :: 0 <= i < |key| && !IsLower(key[i]) ==> r[|StorePrefix| + i] == key[i]
  {
    StorePrefix + ToUpper(key)
  }

  /** storekey does not depend on the case of its argument. */
  lemma StoreKeyCaseInsensitive(key: string)
    ensures StoreKey(key) == StoreKey(ToUpper(key))
  {
    ToUpperIdempotent(key);
  }

  /** Keys that differ only in case share a store key; a store key is the prefix and an upper-case name. */
  lemma StoreKeyShape(a: string, b: string)
    requires ToUpper(a) == ToUpper(b)
    ensures StoreKey(a) == StoreKey(b)
    ensures StoreKey(a)[..|StorePrefix|] == StorePrefix
    ensures IsUpperCase(StoreKey(a))
  {
    var k := StoreKey(a);
    assert k[..|StorePrefix|] == StorePrefix;
    forall i | 0 <= i < |k|
      ensures !IsLower(k[i])
    {
      if i >= |StorePrefix| {
        ToUpperIsUpperCase(a);
        assert k[i] == ToUpper(a)[i - |StorePrefix|];
      }
    }
  }

  // ---------------------------------------------------------------------
  // 64-bit integers, as Go's int and time.Duration hold them

  const MinInt64: int := -0x8000_0000_0000_0000
  const MaxInt64: int := 0x7fff_ffff_ffff_ffff
  const TwoTo64: int := 0x1_0000_0000_0000_0000

  predicate InInt64(x: int) {
    MinInt64 <= x <= MaxInt64
  }

  /** Two's-complement wrap-around of a 64-bit multiplication result. */
  function WrapInt64(x: int): (r: int)
    ensures InInt64(r)
    ensures (r - x) % TwoTo64 == 0
    ensures InInt64(x) ==> r == x
  {
    (x - MinInt64) % TwoTo64 + MinInt64
  }

  /** Go's integer division, which truncates toward zero. */
  function QuoTrunc(a: int, b: int): int
    requires b > 0
  {
    if a >= 0 then a / b else -((-a) / b)
  }

  // ---------------------------------------------------------------------
  // strconv.Atoi

  predicate IsDigit(c: char) {
    '0' <= c <= '9'
  }

  predicate AllDigits(s: string) {
    forall i :: 0 <= i < |s| ==> IsDigit(s[i])
  }

  /** The value of a string of decimal digits, most significant first. */
  function DigitsValue(ds: string): nat
    requires AllDigits(ds)
    decreases |ds|
  {
    if ds == [] then 0
    else DigitsValue(ds[..|ds| - 1]) * 10 + (ds[|ds| - 1] as int - '0' as int)
  }

  /**
   * strconv.Atoi: an optional sign followed by one or more decimal digits,
   * whose value fits in 64 bits; anything else (the empty string, a lone
   * sign, blanks, other characters, out of range) is an error.
   */
  function Atoi(s: string): (r: Option<int>)
    ensures r.Some? ==> InInt64(r.value)
    ensures r.Some? ==> |s| > 0 && (IsDigit(s[0]) || s[0] == '+' || s[0] == '-')
    ensures r.Some? ==> AllDigits(s[1..])
    ensures r.Some? ==> |s| >= 2 || IsDigit(s[0])
  {
    var signed := |s| > 0 && (s[0] == '+' || s[0] == '-');
    var digits := if signed then s[1..] else s;
    if digits == [] || !AllDigits(digits) then None
    else
      var magnitude: int := DigitsValue(digits);
      var v: int := if signed && s[0] == '-' then -magnitude else magnitude;
      if InInt64(v) then Some(v) else None
  }

  /** The character of one decimal digit. */
  function DigitChar(d: nat): (c: char)
    requires d < 10
    ensures IsDigit(c) && c as int - '0' as int == d
  {
    ('0' as int + d) as char
  }

  /** The decimal digits of a natural number, without leading zeros. */
  function NatDigits(n: nat): (ds: string)
    ensures |ds| > 0 && AllDigits(ds)
  {
    if n < 10 then [DigitChar(n)] else NatDigits(n / 10) + [DigitChar(n % 10)]
  }

  /** The decimal rendering of an integer, as strconv.Itoa writes it. */
  function Itoa(n: int): string {
    if n < 0 then "-" + NatDigits(-n) else NatDigits(n)
  }

  lemma {:induction false} NatDigitsValue(n: nat)
    ensures DigitsValue(NatDigits(n)) == n
  {
    var ds := NatDigits(n);
    if n >= 10 {
      NatDigitsValue(n / 10);
      assert ds[..|ds| - 1] == NatDigits(n / 10);
    }
  }

  /** Atoi reads back every 64-bit integer that Itoa writes. */
  lemma AtoiItoa(n: int)
    requires InInt64(n)
    ensures Atoi(Itoa(n)) == Some(n)
  {
    var s := Itoa(n);
    if n < 0 {
      var ds := NatDigits(-n);
      NatDigitsValue(-n);
      assert s == "-" + ds;
      assert s[0] == '-' && s[1..] == ds;
      assert DigitsValue(ds) == -n;
    } else {
      NatDigitsValue(n);
      assert IsDigit(s[0]);
    }
  }

  /**
   * Atoi accepts every optional sign followed by one or more digits whose
   * value fits in 64 bits, leading zeros and a "+" included, and yields that
   * value; the same text out of range is refused.
   */
  lemma AtoiSignedDigits(sign: string, ds: string)
    requires sign == "" || sign == "+" || sign == "-"
    requires ds != [] && AllDigits(ds)
    ensures var v: int := if sign == "-" then -(DigitsValue(ds) as int) else DigitsValue(ds);
      Atoi(sign + ds) == if InInt64(v) then Some(v) else None
  {
    var s := sign + ds;
    if sign == "" {
      assert s == ds;
      assert IsDigit(ds[0]);
    } else {
      assert s[0] == sign[0] && s[1..] == ds;
    }
  }

  /** Atoi refuses the empty string, a lone sign, and any string with a blank in it. */
  lemma AtoiRejectsBlank(s: string)
    requires s == [] || s == "+" || s == "-" || ' ' in s
    ensures Atoi(s) == None
  {
  }

  // ---------------------------------------------------------------------
  // cookieseconds (util.go:14-20)

  const DaySeconds: int := 86400
  const DefaultCookieDays: int := 31
  /** time.Hour and time.Second, in nanoseconds. */
  const Hour: int := 3_600_000_000_000
  const Second: int := 1_000_000_000
  /** The largest day count whose duration in nanoseconds fits in 64 bits. */
  const MaxCookieDays: int := 106751

  /**
   * A duration in days, given as text, in seconds. Text Atoi refuses falls
   * back to 31 days; the day count is converted to hours, then to a
   * time.Duration in nanoseconds, each in 64-bit arithmetic, and divided
   * by one second.
   */
  function CookieSeconds(d: string): (r: int)
    ensures Atoi(d).None? ==> r == DefaultCookieDays * DaySeconds
    ensures Atoi(d).Some? && -MaxCookieDays <= Atoi(d).value <= MaxCookieDays ==>
              r == Atoi(d).value * DaySeconds
    ensures InInt64(r)
  {
    var base := match Atoi(d) case Some(n) => n case None => DefaultCookieDays;
    QuoTrunc(WrapInt64(WrapInt64(base * 24) * Hour), Second)
  }

  /** A day count written out in decimal converts to that many days of seconds. */
  lemma CookieSecondsOfDays(n: int)
    requires -MaxCookieDays <= n <= MaxCookieDays
    ensures CookieSeconds(Itoa(n)) == n * DaySeconds
  {
    AtoiItoa(n);
  }

  /** Over day counts within range, more days never give fewer seconds. */
  lemma CookieSecondsMonotonic(d: string, e: string)
    requires Atoi(d).Some? && Atoi(e).Some?
    requires -MaxCookieDays <= Atoi(d).value <= Atoi(e).value <= MaxCookieDays
    ensures CookieSeconds(d) <= CookieSeconds(e)
  {
  }

  /** "0" days is zero seconds, and the built-in "31" agrees with the fallback for rejected text. */
  lemma CookieSecondsDefaults(bad: string)
    requires Atoi(bad).None?
    ensures CookieSeconds("0") == 0
    ensures CookieSeconds("31") == CookieSeconds(bad) == 2678400
  {
    assert AllDigits("31");
    assert DigitsValue("31"[..1]) == 3;
    assert Atoi("31") == Some(31);
    assert AllDigits("0");
    assert Atoi("0") == Some(0);
  }
}
