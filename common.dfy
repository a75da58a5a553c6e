/**
 * Helpers shared by the components: optional values, the JavaScript truthiness
 * of an optional string (`v || fallback`), and the two string operations the
 * client relies on, `toLowerCase` and `includes`.
 */
module Common {

  datatype Option<+T> = None | Some(value: T) {
    /** `v ?? default` */
    function GetOr(default: T): T {
      match this
      case Some(v) => v
      case None => default
    }
  }

  /** A string read from storage or a response is truthy exactly when it is present and non-empty. */
  predicate Present(v: Option<string>) {
    v.Some? && v.value != ""
  }

  /** `v || fallback` for an optional string. */
  function OrElse(v: Option<string>, fallback: string): (r: string)
    ensures Present(v) ==> r == v.value
    ensures !Present(v) ==> r == fallback
  {
    if Present(v) then v.value else fallback
  }

  /** `images?.[0]?.url || placeholder` over the list of image URLs. */
  function FirstImageOr(images: Option<seq<string>>, placeholder: string): (r: string)
    ensures images.Some? && |images.value| > 0 && images.value[0] != "" ==> r == images.value[0]
    ensures !(images.Some? && |images.value| > 0 && images.value[0] != "") ==> r == placeholder
  {
    if images.Some? && |images.value| > 0 then OrElse(Some(images.value[0]), placeholder) else placeholder
  }

  predicate IsUpper(c: char) {
    'A' <= c <= 'Z'
  }

  /** Lower-casing of one character; only the ASCII letters A-Z change. */
  function LowerChar(c: char): (r: char)
    ensures !IsUpper(r)
    ensures !IsUpper(c) ==> r == c
    ensures IsUpper(c) ==> r as int == c as int + 32
  {
    if IsUpper(c) then (c as int + 32) as char else c
  }

  /** `s.toLowerCase()`, character by character. */
  function Lower(s: string): (r: string)
    ensures |r| == |s|
    ensures forall i :: 0 <= i < |s| ==> r[i] == LowerChar(s[i])
  {
    if s == [] then [] else [LowerChar(s[0])] + Lower(s[1..])
  }

  /** True when no character of `s` is an upper-case ASCII letter. */
  predicate IsLowerCase(s: string) {
    forall i :: 0 <= i < |s| ==> !IsUpper(s[i])
  }

  lemma {:induction false} LowerIsLowerCase(s: string)
    ensures IsLowerCase(Lower(s))
  {
    if s != [] {
      LowerIsLowerCase(s[1..]);
      assert Lower(s) == [LowerChar(s[0])] + Lower(s[1..]);
    }
  }

  /** Lower-casing a string that is already lower case changes nothing. */
  lemma LowerOfLowerCase(s: string)
    requires IsLowerCase(s)
    ensures Lower(s) == s
  {
  }

  lemma LowerIdempotent(s: string)
    ensures Lower(Lower(s)) == Lower(s)
  {
    LowerIsLowerCase(s);
    LowerOfLowerCase(Lower(s));
  }

  lemma LowerSuffix(s: string, k: nat)
    requires k <= |s|
    ensures Lower(s)[k..] == Lower(s[k..])
  {
  }

  predicate StartsWith(s: string, prefix: string) {
    |prefix| <= |s| && s[..|prefix|] == prefix
  }

  /** `s.includes(needle)`: the needle occurs at some position of `s`. */
  predicate Includes(s: string, needle: string)
    decreases |s|
  {
    StartsWith(s, needle) || (s != [] && Includes(s[1..], needle))
  }

  /** The needle occurs in `s` starting at index `i`. */
  predicate OccursAt(s: string, needle: string, i: int) {
    0 <= i <= |s| - |needle| && s[i..i + |needle|] == needle
  }

  lemma OccursShift(s: string, needle: string, i: int)
    requires s != [] && i > 0
    ensures OccursAt(s, needle, i) <==> OccursAt(s[1..], needle, i - 1)
  {
    if i <= |s| - |needle| {
      assert s[i..i + |needle|] == s[1..][i - 1..i - 1 + |needle|];
    }
  }

  /** `Includes` agrees with the index-based definition of an occurrence. */
  lemma {:induction false} IncludesAtIndex(s: string, needle: string)
    ensures Includes(s, needle) <==> exists i :: OccursAt(s, needle, i)
    decreases |s|
  {
    assert StartsWith(s, needle) <==> OccursAt(s, needle, 0);
    if s != [] {
      IncludesAtIndex(s[1..], needle);
      forall i | i > 0 && OccursAt(s, needle, i)
        ensures OccursAt(s[1..], needle, i - 1)
      {
        OccursShift(s, needle, i);
      }
      forall j | j >= 0 && OccursAt(s[1..], needle, j)
        ensures OccursAt(s, needle, j + 1)
      {
        OccursShift(s, needle, j + 1);
      }
    }
  }

  /** An occurrence of a needle survives lower-casing both strings. */
  lemma {:induction false} IncludesLower(s: string, needle: string)
    requires Includes(s, needle)
    ensures Includes(Lower(s), Lower(needle))
  {
    if StartsWith(s, needle) {
      assert Lower(s)[..|needle|] == Lower(needle);
    } else {
      IncludesLower(s[1..], needle);
      LowerSuffix(s, 1);
    }
  }

  function DigitChar(d: nat): (c: char)
    requires d < 10
    ensures '0' <= c <= '9'
  {
    ('0' as int + d) as char
  }

  /** The decimal rendering of a number, as a template literal prints it; no leading zero. */
  function NatToString(n: nat): (r: string)
    ensures |r| >= 1
    ensures forall i :: 0 <= i < |r| ==> '0' <= r[i] <= '9'
    ensures r[0] == '0' <==> n == 0
    decreases n
  {
    if n < 10 then [DigitChar(n)] else NatToString(n / 10) + [DigitChar(n % 10)]
  }

  /** The number a string of decimal digits spells, most significant digit first. */
  function DecimalValue(s: string): nat
    requires forall i :: 0 <= i < |s| ==> '0' <= s[i] <= '9'
  {
    if s == [] then 0 else 10 * DecimalValue(s[..|s| - 1]) + (s[|s| - 1] as int - '0' as int)
  }

  /** The rendering spells the number: reading it back gives `n`. */
  lemma {:induction false} NatToStringValue(n: nat)
    ensures DecimalValue(NatToString(n)) == n
    decreases n
  {
    if n >= 10 {
      NatToStringValue(n / 10);
      var r := NatToString(n);
      assert r[..|r| - 1] == NatToString(n / 10);
    }
  }
}
