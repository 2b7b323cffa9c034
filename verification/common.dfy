/** Small vocabulary shared by every module: optional values, the JavaScript
    notions of "truthy" and `||`-defaulting on strings, template-literal
    interpolation of possibly undefined values, prefix/substring tests and the
    decimal rendering of natural numbers. */
module Common {

  /** An optional value; `None` stands for JavaScript's `undefined` (or `null`). */
  datatype Option<+T> = None | Some(value: T) {
    function GetOr(default: T): T {
      match this
      case Some(v) => v
      case None => default
    }
  }

  /** A value or an error message (a thrown `Error`). */
  datatype Result<+T> = Success(value: T) | Failure(error: string)

  /** An environment variable table: a name that is absent is `undefined`. */
  type Env = map<string, string>

  /** A plain JavaScript object of strings: keys that are present, each
      holding a value that may be `undefined` (`None`). */
  type Object = map<string, Option<string>>

  /** `obj[key]`: an absent key reads as `undefined`. */
  function Lookup(obj: Object, key: string): (r: Option<string>)
    ensures key !in obj ==> r == None
    ensures key in obj ==> r == obj[key]
  {
    if key in obj then obj[key] else None
  }

  function Get(env: Env, key: string): (r: Option<string>)
    ensures r.Some? <==> key in env
    ensures r.Some? ==> r.value == env[key]
  {
    if key in env then Some(env[key]) else None
  }

  /** A JavaScript string value is truthy when it is defined and not empty. */
  predicate Truthy(s: Option<string>) {
    s.Some? && s.value != ""
  }

  /** `s || fallback` on an optional string. */
  function Or(s: Option<string>, fallback: string): (r: string)
    ensures Truthy(s) ==> r == s.value
    ensures !Truthy(s) ==> r == fallback
  {
    if Truthy(s) then s.value else fallback
  }

  /** `${s}` inside a template literal: `undefined` prints as the word. */
  function Interpolate(s: Option<string>): string {
    match s
    case Some(v) => v
    case None => "undefined"
  }

  predicate StartsWith(s: string, prefix: string) {
    |prefix| <= |s| && s[..|prefix|] == prefix
  }

  predicate EndsWith(s: string, suffix: string) {
    |suffix| <= |s| && s[|s| - |suffix|..] == suffix
  }

  lemma ConcatAssoc(a: string, b: string, c: string)
    ensures (a + b) + c == a + (b + c)
  {
  }

  lemma PrefixOfConcat(a: string, b: string)
    ensures StartsWith(a + b, a)
  {
    assert (a + b)[..|a|] == a;
  }

  lemma PrefixUnderConcat(h: string, rest: string, p: string)
    requires StartsWith(rest, p)
    ensures StartsWith(h + rest, h + p)
  {
    assert (h + rest)[..|h + p|] == h + rest[..|p|];
  }

  /** A prefix of a string is a prefix of anything that extends it. */
  lemma PrefixOfExtension(s: string, t: string, p: string)
    requires StartsWith(s, p)
    ensures StartsWith(s + t, p)
  {
    assert (s + t)[..|p|] == s[..|p|];
  }

  /** A string agrees with its prefix position by position. */
  lemma CharOfPrefix(s: string, p: string, k: nat)
    requires StartsWith(s, p) && k < |p|
    ensures k < |s| && s[k] == p[k]
  {
    assert s[..|p|][k] == s[k];
  }

  /** Two strings that differ at position `k` cannot be prefixed by one another,
      whatever common text comes first. */
  lemma DifferAtUnderConcat(h: string, rest: string, p: string, k: nat)
    requires k < |rest| && k < |p| && rest[k] != p[k]
    ensures !StartsWith(h + rest, h + p)
  {
    assert (h + rest)[|h| + k] == rest[k];
    assert (h + p)[|h| + k] == p[k];
  }

  /** `s.includes(sub)`. */
  predicate Contains(s: string, sub: string)
    decreases |s|
  {
    StartsWith(s, sub) || (|s| > 0 && Contains(s[1..], sub))
  }

  /** The character of a decimal digit. */
  function DigitChar(d: nat): (c: char)
    requires d < 10
    ensures '0' <= c <= '9' && c as int - '0' as int == d
  {
    (d + '0' as int) as char
  }

  predicate IsDigits(s: string) {
    forall i :: 0 <= i < |s| ==> '0' <= s[i] <= '9'
  }

  /** The decimal rendering of `n`, as `String(n)` or `${n}` produce it. */
  function NatToString(n: nat): (s: string)
    ensures |s| >= 1 && IsDigits(s)
    ensures |s| > 1 ==> s[0] != '0'
    decreases n
  {
    if n < 10 then [DigitChar(n)] else NatToString(n / 10) + [DigitChar(n % 10)]
  }

  /** The value of a string of decimal digits (its inverse reading). */
  function DigitsValue(s: string): nat
    requires IsDigits(s)
    decreases |s|
  {
    if s == [] then 0
    else 10 * DigitsValue(s[..|s| - 1]) + (s[|s| - 1] as int - '0' as int)
  }

  /** Reading back the decimal rendering gives the number: the rendering is
      faithful, and in particular two different numbers never render alike. */
  lemma {:induction false} NatToStringRoundTrip(n: nat)
    ensures DigitsValue(NatToString(n)) == n
    decreases n
  {
    var s := NatToString(n);
    if n >= 10 {
      var front := NatToString(n / 10);
      assert s[..|s| - 1] == front;
      NatToStringRoundTrip(n / 10);
    }
  }

  lemma NatToStringInjective(m: nat, n: nat)
    requires NatToString(m) == NatToString(n)
    ensures m == n
  {
    NatToStringRoundTrip(m);
    NatToStringRoundTrip(n);
  }
}
