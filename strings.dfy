/** String helpers standing for the Python `str` methods the core uses. */
module Strings {
  import opened Wrappers

  predicate StartsWith(s: string, p: string) {
    |p| <= |s| && s[..|p|] == p
  }

  /** Text built by appending to `a` starts with `a`. */
  lemma StartsWithAppend(a: string, b: string, c: string)
    ensures StartsWith(a + b + c, a)
  {
    assert (a + b + c)[..|a|] == a;
  }

  predicate EndsWith(s: string, p: string) {
    |p| <= |s| && s[|s| - |p|..] == p
  }

  /** Python `p in s` on strings: substring test. */
  predicate Contains(s: string, p: string)
    decreases |s|
  {
    StartsWith(s, p) || (|s| > 0 && Contains(s[1..], p))
  }

  lemma {:induction false} ContainsAt(s: string, p: string, i: nat)
    requires i + |p| <= |s| && s[i..i + |p|] == p
    ensures Contains(s, p)
    decreases i
  {
    if i > 0 {
      assert s[1..][i - 1..i - 1 + |p|] == s[i..i + |p|];
      ContainsAt(s[1..], p, i - 1);
    }
  }

  /** Index of the last occurrence of `c` in `s`. */
  function LastIndexOf(s: string, c: char): (r: Option<nat>)
    ensures r.None? <==> c !in s
    ensures r.Some? ==> r.value < |s| && s[r.value] == c && c !in s[r.value + 1..]
    decreases |s|
  {
    if |s| == 0 then None
    else if s[|s| - 1] == c then Some(|s| - 1)
    else
      var r := LastIndexOf(s[..|s| - 1], c);
      assert forall i :: 0 <= i < |s| - 1 ==> s[..|s| - 1][i] == s[i];
      assert r.Some? ==> s[r.value + 1..] == s[..|s| - 1][r.value + 1..] + [s[|s| - 1]];
      r
  }

  /** Python `s.rsplit(c, 1)` when `c` occurs in `s`: the text before and after the last `c`. */
  function RSplit(s: string, c: char): (r: Option<(string, string)>)
    ensures r.None? <==> c !in s
    ensures r.Some? ==> s == r.value.0 + [c] + r.value.1 && c !in r.value.1
  {
    match LastIndexOf(s, c)
    case None => None
    case Some(i) =>
      assert s == s[..i] + [c] + s[i + 1..];
      Some((s[..i], s[i + 1..]))
  }

  /** Splitting at the last `c` is the only split whose right part holds no `c`. */
  lemma RSplitOfJoin(x: string, c: char, y: string)
    requires c !in y
    ensures RSplit(x + [c] + y, c) == Some((x, y))
  {
    var s := x + [c] + y;
    var r := RSplit(s, c);
    assert s[|x|] == c;
    var (a, b) := r.value;
    assert |a| == |x|;
    assert a == s[..|x|] == x;
    assert b == s[|x| + 1..] == y;
  }

  /** Python `s.split(c, 1)[0]`: the text before the first `c`, or all of `s`. */
  function BeforeFirst(s: string, c: char): (r: string)
    ensures StartsWith(s, r)
    ensures c !in r
    ensures c in s ==> |r| < |s| && s[|r|] == c
    decreases |s|
  {
    if |s| == 0 || s[0] == c then ""
    else [s[0]] + BeforeFirst(s[1..], c)
  }

  /** Python `s.replace(p, "")`: removes every non-overlapping occurrence of `p`, scanning left to right. */
  function RemoveAll(s: string, p: string): (r: string)
    requires |p| > 0
    ensures |r| <= |s|
    ensures !Contains(s, p) ==> r == s
    decreases |s|
  {
    if |s| == 0 then ""
    else if StartsWith(s, p) then RemoveAll(s[|p|..], p)
    else [s[0]] + RemoveAll(s[1..], p)
  }

  /** Removing `p` from `p + x`, when `x` holds no `p`, leaves `x`. */
  lemma RemoveAllOfPrefix(p: string, x: string)
    requires |p| > 0 && !Contains(x, p)
    ensures RemoveAll(p + x, p) == x
  {
    assert StartsWith(p + x, p);
    assert (p + x)[|p|..] == x;
  }

  /** Python `s.replace(a, b)` for single characters. */
  function ReplaceChar(s: string, a: char, b: char): (r: string)
    ensures |r| == |s|
    ensures forall i :: 0 <= i < |s| ==> r[i] == if s[i] == a then b else s[i]
  {
    seq(|s|, i requires 0 <= i < |s| => if s[i] == a then b else s[i])
  }

  predicate IsDigit(c: char) { '0' <= c <= '9' }

  /** Python `str.isdigit` over ASCII: non-empty and every character a decimal digit. */
  predicate IsDigits(s: string) {
    |s| > 0 && forall i :: 0 <= i < |s| ==> IsDigit(s[i])
  }

  function Lower(c: char): (r: char)
    ensures 'A' <= c <= 'Z' ==> 'a' <= r <= 'z'
    ensures !('A' <= c <= 'Z') ==> r == c
  {
    if 'A' <= c <= 'Z' then (c as int + 32) as char else c
  }

  /**
   * Python `s[0].lower() + s[1:]` for non-empty `s`. Only ASCII letters are lowered, where
   * `str.lower` is Unicode-wide; the FHIR type and element names it is applied to are ASCII.
   */
  function LowerFirst(s: string): (r: string)
    requires |s| > 0
    ensures |r| == |s| && r[1..] == s[1..] && r[0] == Lower(s[0])
  {
    [Lower(s[0])] + s[1..]
  }

  function DigitChar(d: nat): (c: char)
    requires d < 10
    ensures IsDigit(c) && c as int - '0' as int == d
  {
    ('0' as int + d) as char
  }

  /** Python `str(n)` for a natural number: its shortest decimal numeral. */
  function NatToString(n: nat): (r: string)
    ensures IsDigits(r)
    ensures |r| > 1 ==> r[0] != '0'
    decreases n
  {
    if n < 10 then [DigitChar(n)] else NatToString(n / 10) + [DigitChar(n % 10)]
  }

  /** Python `str(i)` for an integer: a minus sign before the numeral of a negative number. */
  function IntToString(i: int): (r: string)
    ensures i >= 0 ==> IsDigits(r)
    ensures i < 0 ==> |r| > 1 && r[0] == '-' && IsDigits(r[1..])
  {
    if i >= 0 then NatToString(i) else "-" + NatToString(-i)
  }

  /** Decimal numerals are unambiguous: different numbers have different numerals. */
  lemma {:induction false} NatToStringInjective(a: nat, b: nat)
    requires NatToString(a) == NatToString(b)
    ensures a == b
    decreases a
  {
    var sa, sb := NatToString(a), NatToString(b);
    if a < 10 && b < 10 {
      assert sa[0] == sb[0];
    } else if a >= 10 && b >= 10 {
      assert sa[|sa| - 1] == sb[|sb| - 1];
      assert a % 10 == b % 10;
      assert sa[..|sa| - 1] == NatToString(a / 10);
      assert sb[..|sb| - 1] == NatToString(b / 10);
      NatToStringInjective(a / 10, b / 10);
    }
  }

  lemma IntToStringInjective(a: int, b: int)
    requires IntToString(a) == IntToString(b)
    ensures a == b
  {
    var sa, sb := IntToString(a), IntToString(b);
    if a >= 0 && b >= 0 {
      NatToStringInjective(a, b);
    } else if a < 0 && b < 0 {
      assert sa[1..] == NatToString(-a) && sb[1..] == NatToString(-b);
      NatToStringInjective(-a, -b);
    }
  }
}
