/**
 * The JavaScript string operations the site relies on, over `seq<char>`:
 * `startsWith`, `slice(1)`, `includes`, `toLowerCase` and the decimal
 * rendering of a number used as an object key.
 */
module Text {

  /** `s.startsWith(p)`. */
  predicate StartsWith(s: string, p: string) {
    |p| <= |s| && s[..|p|] == p
  }

  /** `k` occurs in `s` starting at position `i`. */
  predicate OccursAt(s: string, k: string, i: int) {
    0 <= i <= |s| - |k| && s[i..i + |k|] == k
  }

  /** `s.includes(k)`: `k` occurs at some position of `s` (the empty string occurs everywhere). */
  predicate Includes(s: string, k: string) {
    exists i :: 0 <= i <= |s| && OccursAt(s, k, i)
  }

  /** A witness position proves an occurrence. */
  lemma IncludesAt(s: string, k: string, i: int)
    requires OccursAt(s, k, i)
    ensures Includes(s, k)
  {
  }

  /** An occurrence in a part is an occurrence in the whole. */
  lemma {:induction false} IncludesInContext(a: string, s: string, b: string, k: string)
    requires Includes(s, k)
    ensures Includes(a + s + b, k)
  {
    var i :| 0 <= i <= |s| && OccursAt(s, k, i);
    var w := a + s + b;
    assert w[|a| + i..|a| + i + |k|] == s[i..i + |k|];
    IncludesAt(w, k, |a| + i);
  }

  /** `toLowerCase` on one character; only the ASCII capitals A-Z are folded. */
  function LowerChar(c: char): (d: char)
    ensures 'A' <= c <= 'Z' ==> 'a' <= d <= 'z' && d as int - c as int == 32
    ensures !('A' <= c <= 'Z') ==> d == c
  {
    if 'A' <= c <= 'Z' then (c as int + 32) as char else c
  }

  /** `s.toLowerCase()`, character by character. */
  function ToLower(s: string): (r: string)
    ensures |r| == |s|
    ensures forall i :: 0 <= i < |s| ==> r[i] == LowerChar(s[i])
  {
    seq(|s|, i requires 0 <= i < |s| => LowerChar(s[i]))
  }

  /** Lowering works piece by piece. */
  lemma ToLowerAppend(a: string, b: string)
    ensures ToLower(a + b) == ToLower(a) + ToLower(b)
  {
  }

  /** No upper-case ASCII letter is left after lowering. */
  predicate IsLower(s: string) {
    forall i :: 0 <= i < |s| ==> !('A' <= s[i] <= 'Z')
  }

  /** Lowering yields a lower-case string, and lowering a lower-case string changes nothing. */
  lemma ToLowerIdempotent(s: string)
    ensures IsLower(ToLower(s))
    ensures ToLower(ToLower(s)) == ToLower(s)
    ensures IsLower(s) ==> ToLower(s) == s
  {
  }

  /** `includes` on the lowered text finds every lower-case keyword that occurs verbatim. */
  lemma {:induction false} IncludesLowered(s: string, k: string)
    requires IsLower(k) && Includes(s, k)
    ensures Includes(ToLower(s), k)
  {
    var i :| 0 <= i <= |s| && OccursAt(s, k, i);
    var t := ToLower(s);
    forall j | 0 <= j < |k|
      ensures t[i..i + |k|][j] == k[j]
    {
      assert s[i + j] == k[j];
    }
    IncludesAt(t, k, i);
  }

  /** A keyword spelled out, character by character, in the lowered text from position `i` is included in it. */
  lemma LoweredOccurrence(s: string, k: string, i: nat)
    requires i + |k| <= |s|
    requires forall j :: 0 <= j < |k| ==> LowerChar(s[i + j]) == k[j]
    ensures Includes(ToLower(s), k)
  {
    var t := ToLower(s);
    forall j | 0 <= j < |k|
      ensures t[i..i + |k|][j] == k[j]
    {
      assert t[i + j] == LowerChar(s[i + j]);
    }
    IncludesAt(t, k, i);
  }

  /** The decimal digit for `d < 10`. */
  function Digit(d: nat): (c: char)
    requires d < 10
    ensures '0' <= c <= '9' && c as int - '0' as int == d
  {
    "0123456789"[d]
  }

  /** `String(n)`: the decimal rendering of a natural number, as when a number becomes an object key. */
  function NatToString(n: nat): (r: string)
    ensures 1 <= |r|
    ensures forall i :: 0 <= i < |r| ==> '0' <= r[i] <= '9'
    ensures r[0] == '0' <==> n == 0
  {
    if n < 10 then [Digit(n)] else NatToString(n / 10) + [Digit(n % 10)]
  }

  /** The value of a string of decimal digits. */
  function DigitsValue(s: string): (v: nat)
    requires forall i :: 0 <= i < |s| ==> '0' <= s[i] <= '9'
  {
    if s == [] then 0 else 10 * DigitsValue(s[..|s| - 1]) + (s[|s| - 1] as int - '0' as int)
  }

  /** Reading the rendering back gives the number. */
  lemma {:induction false} NatToStringRoundTrip(n: nat)
    ensures DigitsValue(NatToString(n)) == n
  {
    if n >= 10 {
      var r := NatToString(n);
      assert r[..|r| - 1] == NatToString(n / 10);
      NatToStringRoundTrip(n / 10);
    }
  }

  /** Distinct numbers render as distinct keys. */
  lemma NatToStringInjective(m: nat, n: nat)
    ensures NatToString(m) == NatToString(n) ==> m == n
  {
    NatToStringRoundTrip(m);
    NatToStringRoundTrip(n);
  }
}
