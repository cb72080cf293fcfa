/** The small pieces of string behaviour the loader relies on: decimal digit
    runs and their value (`int(...)`), `str(n)`, the `{:02d}` format, `str.find`,
    the `in` test on strings and `str.join`. Characters are code points; only the
    ASCII digits '0'..'9' count as digits here. */
module Text {

  predicate IsDigit(c: char) {
    '0' <= c <= '9'
  }

  predicate AllDigits(s: string) {
    forall i :: 0 <= i < |s| ==> IsDigit(s[i])
  }

  function DigitValue(c: char): (d: nat)
    requires IsDigit(c)
    ensures d < 10
  {
    (c as int - '0' as int) as nat
  }

  function DigitChar(d: nat): (c: char)
    requires d < 10
    ensures IsDigit(c) && DigitValue(c) == d
  {
    (d + '0' as int) as char
  }

  /** The value of a string of decimal digits, most significant first, as
      `int(...)` reads it (leading zeros allowed). */
  function DigitsValue(s: string): (v: nat)
    requires AllDigits(s)
    ensures v < Pow10(|s|)
  {
    if s == [] then 0 else 10 * DigitsValue(s[..|s| - 1]) + DigitValue(s[|s| - 1])
  }

  function Pow10(n: nat): (p: nat)
    ensures p >= 1
  {
    if n == 0 then 1 else 10 * Pow10(n - 1)
  }

  /** `str(n)` for a non-negative integer: its decimal digits, no leading zero. */
  function DecimalString(n: nat): (s: string)
    ensures |s| >= 1 && AllDigits(s)
    ensures DigitsValue(s) == n
    ensures s[0] == '0' ==> n == 0
    ensures n < 10 <==> |s| == 1
  {
    if n < 10 then [DigitChar(n)]
    else
      var s := DecimalString(n / 10) + [DigitChar(n % 10)];
      assert s[..|s| - 1] == DecimalString(n / 10);
      s
  }

  /** `'{:02d}'.format(n)` for a non-negative integer: at least two digits,
      padded on the left with '0'. */
  function ZeroPad2(n: nat): (s: string)
    ensures |s| >= 2 && AllDigits(s)
    ensures DigitsValue(s) == n
    ensures n >= 10 ==> s == DecimalString(n)
    ensures n < 10 ==> s == ['0', DigitChar(n)]
  {
    if n < 10 then
      var s := "0" + DecimalString(n);
      assert s[..1] == "0";
      s
    else DecimalString(n)
  }

  /** `sub` occurs in `s` starting at position p. */
  predicate OccursAt(s: string, sub: string, p: int) {
    0 <= p && p + |sub| <= |s| && s[p..p + |sub|] == sub
  }

  /** `s.find(sub, i)`: the first position at or after i where `sub` occurs,
      or -1 when there is none. */
  function FindFrom(s: string, sub: string, i: nat): (r: int)
    requires i <= |s|
    ensures r == -1 || (i <= r && OccursAt(s, sub, r))
    ensures r == -1 ==> forall p :: i <= p ==> !OccursAt(s, sub, p)
    ensures r >= 0 ==> forall p :: i <= p < r ==> !OccursAt(s, sub, p)
    decreases |s| - i
  {
    if i + |sub| > |s| then -1
    else if s[i..i + |sub|] == sub then i
    else FindFrom(s, sub, i + 1)
  }

  /** `s.find(sub)`: -1 exactly when `sub` occurs nowhere in `s`, otherwise
      the first position where it occurs. */
  function Find(s: string, sub: string): (r: int)
    ensures r == -1 <==> forall p :: !OccursAt(s, sub, p)
    ensures r != -1 ==> OccursAt(s, sub, r) && forall p :: 0 <= p < r ==> !OccursAt(s, sub, p)
  {
    FindFrom(s, sub, 0)
  }

  /** `sub in s` for strings: `sub` occurs at some position of `s`. */
  predicate Contains(s: string, sub: string)
    ensures Contains(s, sub) <==> exists p :: OccursAt(s, sub, p)
  {
    Find(s, sub) >= 0
  }

  /** `s.find(sub) > 0` holds exactly when `sub` occurs somewhere after the
      start of `s` and does not occur at the very start. */
  lemma FindPositive(s: string, sub: string)
    ensures Find(s, sub) > 0 <==> !OccursAt(s, sub, 0) && exists p :: 0 < p && OccursAt(s, sub, p)
  {
    if Find(s, sub) > 0 {
      assert OccursAt(s, sub, Find(s, sub));
    }
  }

  /** `sep.join(parts)`: it starts with the first part, and holds every part
      and one separator between each two neighbours. */
  function Join(sep: string, parts: seq<string>): (r: string)
    ensures parts == [] ==> r == ""
    ensures parts != [] ==> |r| == TotalLength(parts) + (|parts| - 1) * |sep|
    ensures parts != [] ==> |parts[0]| <= |r| && r[..|parts[0]|] == parts[0]
  {
    if parts == [] then ""
    else if |parts| == 1 then parts[0]
    else parts[0] + sep + Join(sep, parts[1..])
  }

  /** Joining two non-empty lists puts one separator between the two joins. */
  lemma {:induction false} JoinAppend(sep: string, xs: seq<string>, ys: seq<string>)
    requires xs != [] && ys != []
    ensures Join(sep, xs + ys) == Join(sep, xs) + sep + Join(sep, ys)
  {
    if |xs| == 1 {
      assert (xs + ys)[1..] == ys;
    } else {
      assert (xs + ys)[1..] == xs[1..] + ys;
      JoinAppend(sep, xs[1..], ys);
    }
  }

  function TotalLength(parts: seq<string>): nat {
    if parts == [] then 0 else |parts[0]| + TotalLength(parts[1..])
  }
}
