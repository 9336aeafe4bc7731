/**
 * The few pieces of PHP's value semantics the location provider relies on:
 * which values count as "empty" (and are dropped by `array_filter`), how a
 * value becomes an array key or a string, and lower-casing.
 */
module Php {
  import opened Wrappers

  /**
   * A scalar value decoded from a lookup response. Numbers (coordinates may
   * be floats) are kept as exact reals: the adapter only copies them and
   * asks whether they are zero.
   */
  datatype Value = Null | Str(s: string) | Num(x: real)

  /** PHP truthiness: null, '', '0' and zero are falsy, everything else is truthy. */
  predicate Truthy(v: Value) {
    match v
    case Null => false
    case Str(s) => s != "" && s != "0"
    case Num(x) => x != 0.0
  }

  /**
   * The string PHP uses for `v` as an array key or as the argument of a
   * string function: a string as it is, null as ''. Numbers are not given
   * a string form here.
   */
  function StringOf(v: Value): Option<string> {
    match v
    case Null => Some("")
    case Str(s) => Some(s)
    case Num(_) => None
  }

  /** `array_filter` without a callback: keeps exactly the entries whose value is truthy. */
  function ArrayFilter<K(!new)>(m: map<K, Value>): (r: map<K, Value>)
    ensures forall k :: k in r <==> k in m && Truthy(m[k])
    ensures forall k :: k in r ==> r[k] == m[k]
  {
    map k | k in m && Truthy(m[k]) :: m[k]
  }

  predicate IsUpperAscii(c: char) {
    'A' <= c <= 'Z'
  }

  predicate IsLowerAscii(c: char) {
    'a' <= c <= 'z'
  }

  function LowerChar(c: char): char {
    if IsUpperAscii(c) then (c as int + 32) as char else c
  }

  function UpperChar(c: char): char {
    if IsLowerAscii(c) then (c as int - 32) as char else c
  }

  /** Lower-casing of a string (`mb_strtolower`), restricted to ASCII letters. */
  function Lower(s: string): (r: string)
    ensures |r| == |s|
    ensures forall i :: 0 <= i < |r| ==> !IsUpperAscii(r[i])
  {
    seq(|s|, i requires 0 <= i < |s| => LowerChar(s[i]))
  }

  /** Upper-casing of a string, restricted to ASCII letters. */
  function Upper(s: string): (r: string)
    ensures |r| == |s|
    ensures forall i :: 0 <= i < |r| ==> !IsLowerAscii(r[i])
  {
    seq(|s|, i requires 0 <= i < |s| => UpperChar(s[i]))
  }

  /** Lower-casing is idempotent. */
  lemma LowerIdempotent(s: string)
    ensures Lower(Lower(s)) == Lower(s)
  {
  }

  /** Upper-casing a string first does not change its lower-cased form. */
  lemma LowerOfUpper(s: string)
    ensures Lower(Upper(s)) == Lower(s)
  {
  }
}
