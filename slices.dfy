/** Python list behaviour the loader relies on: the slice `s[lo:hi]` with
    step 1 and `list.remove(x)`. */
module Slices {

  /** How a slice bound is read: a negative bound counts from the end, then the
      bound is clamped into [0, n]. */
  function SliceBound(i: int, n: nat): (r: nat)
    ensures r <= n
    ensures 0 <= i ==> r == if i <= n then i else n
    ensures -(n as int) <= i < 0 ==> r == i + n
    ensures i < -(n as int) ==> r == 0
  {
    if i < 0 then (if i + n < 0 then 0 else i + n)
    else if i > n then n
    else i
  }

  /** `s[lo:hi]`: the elements of `s` from the lower bound on, as many as the
      upper bound lies past it (none when it does not), both bounds read as
      Python reads them. */
  function Slice<T>(s: seq<T>, lo: int, hi: int): (r: seq<T>)
    ensures var a, b := SliceBound(lo, |s|), SliceBound(hi, |s|);
      |r| == (if a < b then b - a else 0) && forall k :: 0 <= k < |r| ==> r[k] == s[a + k]
  {
    var a, b := SliceBound(lo, |s|), SliceBound(hi, |s|);
    if a < b then s[a..b] else []
  }

  /** A slice is a contiguous run of `s`, at most as long as `s`. */
  lemma SliceIsRun<T>(s: seq<T>, lo: int, hi: int)
    ensures |Slice(s, lo, hi)| <= |s|
    ensures exists a :: RunAt(s, Slice(s, lo, hi), a)
  {
    var a, b := SliceBound(lo, |s|), SliceBound(hi, |s|);
    if a < b {
      assert RunAt(s, Slice(s, lo, hi), a);
    } else {
      assert RunAt(s, Slice(s, lo, hi), 0);
    }
  }

  /** r sits in s at position a. */
  ghost predicate RunAt<T>(s: seq<T>, r: seq<T>, a: int) {
    0 <= a && a + |r| <= |s| && s[a..a + |r|] == r
  }

  /** With non-negative bounds the slice is empty when hi <= lo and is the run
      from lo up to (and not including) hi, cut at the end of `s`, otherwise. */
  lemma SliceNonNegative<T>(s: seq<T>, lo: nat, hi: nat)
    ensures hi <= lo ==> Slice(s, lo, hi) == []
    ensures lo < hi <= |s| ==> Slice(s, lo, hi) == s[lo..hi]
    ensures lo <= |s| < hi ==> Slice(s, lo, hi) == s[lo..]
    ensures |s| <= lo ==> Slice(s, lo, hi) == []
  {
  }

  /** A negative bound counts from the end: `s[-1:]` is the last element. */
  lemma SliceNegativeStart<T>(s: seq<T>, lo: int, hi: int)
    requires -|s| <= lo < 0
    ensures Slice(s, lo, hi) == Slice(s, lo + |s|, hi)
  {
  }

  lemma AppendAssoc<T>(a: seq<T>, b: seq<T>, c: seq<T>)
    ensures (a + b) + c == a + (b + c)
  {
  }

  /** The first position of x in xs. */
  function IndexOf<T(==)>(xs: seq<T>, x: T): (i: nat)
    requires x in xs
    ensures i < |xs| && xs[i] == x && x !in xs[..i]
  {
    if xs[0] == x then 0
    else
      var i := 1 + IndexOf(xs[1..], x);
      assert xs[..i] == [xs[0]] + xs[1..][..i - 1];
      i
  }

  /** `xs.remove(x)`: drops the first occurrence of x; Python raises when x is
      absent, and the loader only calls it after testing `x in xs`. */
  function RemoveFirst<T(==)>(xs: seq<T>, x: T): (r: seq<T>)
    requires x in xs
    ensures |r| == |xs| - 1
    ensures multiset(r) == multiset(xs) - multiset{x}
    ensures r == xs[..IndexOf(xs, x)] + xs[IndexOf(xs, x) + 1..]
  {
    var i := IndexOf(xs, x);
    assert xs == xs[..i] + [x] + xs[i + 1..];
    xs[..i] + xs[i + 1..]
  }
}
