/** The few string operations the gateway relies on, in terms of characters. */
module Text {

  datatype Option<+T> = None | Some(value: T)

  /** The Unicode White_Space property, which is what trimming removes. */
  predicate IsWhitespace(c: char) {
    var u := c as int;
    || 0x9 <= u <= 0xD || u == 0x20 || u == 0x85 || u == 0xA0 || u == 0x1680
    || 0x2000 <= u <= 0x200A || u == 0x2028 || u == 0x2029 || u == 0x202F
    || u == 0x205F || u == 0x3000
  }

  function TrimStart(s: string): string {
    if s != [] && IsWhitespace(s[0]) then TrimStart(s[1..]) else s
  }

  function TrimEnd(s: string): string {
    if s != [] && IsWhitespace(s[|s| - 1]) then TrimEnd(s[..|s| - 1]) else s
  }

  function Trim(s: string): string {
    TrimEnd(TrimStart(s))
  }

  /** Lexicographic order on code points, the order `sort_unstable` gives strings. */
  predicate StringLe(a: string, b: string) {
    a == [] || (b != [] && (a[0] < b[0] || (a[0] == b[0] && StringLe(a[1..], b[1..]))))
  }

  /** `trim_end_matches('.')`. */
  function TrimDots(s: string): string {
    if s != [] && s[|s| - 1] == '.' then TrimDots(s[..|s| - 1]) else s
  }

  /** `to_ascii_lowercase`. */
  function Lower(s: string): (r: string)
    ensures |r| == |s|
  {
    seq(|s|, i requires 0 <= i < |s| => if 'A' <= s[i] <= 'Z' then (s[i] as int + 32) as char else s[i])
  }

  predicate Has(s: string, c: char) {
    exists i :: 0 <= i < |s| && s[i] == c
  }

  /** The part before the first `c`, the whole string if there is none. */
  function Before(s: string, c: char): string {
    if s == [] || s[0] == c then [] else [s[0]] + Before(s[1..], c)
  }

  /** What follows the first dot, if there is one. */
  function Parent(s: string): (r: Option<string>)
    ensures r.Some? ==> |r.value| < |s|
  {
    if s == [] then None else if s[0] == '.' then Some(s[1..]) else Parent(s[1..])
  }

  predicate EndsWith(s: string, t: string) {
    |t| <= |s| && s[|s| - |t|..] == t
  }

  /** A name that normalisation leaves as it is: not empty, no trailing dot, and no
      whitespace, colon, opening bracket or upper-case ASCII letter in it. Any other
      character may occur. */
  predicate IsHostName(s: string) {
    && s != [] && s[|s| - 1] != '.'
    && forall i :: 0 <= i < |s| ==> !IsWhitespace(s[i]) && s[i] != ':' && s[i] != '[' && !('A' <= s[i] <= 'Z')
  }

  predicate IsLabel(s: string) {
    s != [] && !Has(s, '.')
  }

  lemma {:induction false} ParentOfJoin(first: string, rest: string)
    requires !Has(first, '.')
    ensures Parent(first + ['.'] + rest) == Some(rest)
  {
    var s := first + ['.'] + rest;
    if first == [] {
      assert s[1..] == rest;
    } else {
      assert first[0] != '.';
      assert forall i :: 0 <= i < |first[1..]| ==> first[1..][i] == first[i + 1];
      ParentOfJoin(first[1..], rest);
      assert s[1..] == first[1..] + ['.'] + rest;
    }
  }

  lemma {:induction false} BeforeKeeps(s: string, c: char)
    requires !Has(s, c)
    ensures Before(s, c) == s
  {
    if s != [] {
      assert s[0] != c;
      assert !Has(s[1..], c) by {
        assert forall i :: 0 <= i < |s[1..]| ==> s[1..][i] == s[i + 1];
      }
      hide Has;
      BeforeKeeps(s[1..], c);
    }
  }

  lemma HostNamesAreNormal(s: string)
    requires IsHostName(s)
    ensures Trim(s) == s && !Has(s, ':') && Before(s, ':') == s && TrimDots(s) == s && Lower(s) == s
  {
    assert Trim(s) == s && TrimDots(s) == s;
    hide IsWhitespace, Trim, TrimDots;
    assert !Has(s, ':');
    BeforeKeeps(s, ':');
    hide Before;
    assert Lower(s) == s;
  }
}
