/** The run's MetaData (sami2py/_core_class.py:289-409): a Python dict, so an
    ordered list of (key, value) pairs with distinct keys whose order is the
    order of first insertion; the entries the namelist determines; and the
    list of non-default settings `check_standard_model` reports. */
module MetaData {
  import opened Wrappers
  import opened Text
  import opened Slices
  import opened Tokens

  /** The kinds of value the dict holds: `.true.` tests, `find_int` results,
      `find_float` results (the exact decimal value of the matched token),
      fixed names, and the array of Fourier coefficients read from exb.inp. */
  datatype Value =
    | Flag(b: bool)
    | Int(i: nat)
    | Float(x: real)
    | Str(s: string)
    | Coeffs(values: seq<real>)

  /** Every value but the coefficient array. */
  type Scalar = v: Value | !v.Coeffs? witness Flag(false)

  type Entry = (string, Value)

  /** Every value of the sequence is a float. */
  predicate AllFloats(vs: seq<Value>) {
    forall i :: 0 <= i < |vs| ==> vs[i].Float?
  }

  lemma AllFloatsConcat(a: seq<Value>, b: seq<Value>)
    requires AllFloats(a) && AllFloats(b)
    ensures AllFloats(a + b)
  {
  }

  lemma AllFloatsFive(a: Value, b: Value, c: Value, d: Value, e: Value)
    requires a.Float? && b.Float? && c.Float? && d.Float? && e.Float?
    ensures AllFloats([a, b, c, d, e])
  {
  }

  /** Every value of the sequence is `v`. */
  predicate AllEqual(vs: seq<Value>, v: Value) {
    forall i :: 0 <= i < |vs| ==> vs[i] == v
  }

  lemma AllEqualConcat(a: seq<Value>, b: seq<Value>, v: Value)
    requires AllEqual(a, v) && AllEqual(b, v)
    ensures AllEqual(a + b, v)
  {
  }

  lemma AllEqualFive(v: Value)
    ensures AllEqual([v, v, v, v, v], v)
  {
  }

  const FourierKey := "Fourier Coeffs"

  function Keys(d: seq<Entry>): (ks: seq<string>)
    ensures |ks| == |d|
    ensures forall i :: 0 <= i < |d| ==> ks[i] == d[i].0
  {
    seq(|d|, i requires 0 <= i < |d| => d[i].0)
  }

  predicate UniqueKeys(d: seq<Entry>) {
    forall i, j :: 0 <= i < j < |d| ==> d[i].0 != d[j].0
  }

  /** `d.get(k)`. */
  function Get(d: seq<Entry>, k: string): (r: Option<Value>)
    ensures r.Some? <==> k in Keys(d)
    ensures r.Some? ==> (k, r.value) in d
  {
    if k in Keys(d) then
      var i := IndexOf(Keys(d), k);
      Some(d[i].1)
    else None
  }

  /** With distinct keys, the value of an entry is what Get finds for its key. */
  lemma GetEntry(d: seq<Entry>, i: nat)
    requires UniqueKeys(d) && i < |d|
    ensures Get(d, d[i].0) == Some(d[i].1)
  {
    var j := IndexOf(Keys(d), d[i].0);
    assert d[j].0 == d[i].0;
  }

  /** With distinct keys, Get finds w for k exactly when (k, w) is an entry. */
  lemma GetIsEntry(d: seq<Entry>, k: string, w: Value)
    requires UniqueKeys(d)
    ensures Get(d, k) == Some(w) <==> (k, w) in d
  {
    if (k, w) in d {
      var i :| 0 <= i < |d| && d[i] == (k, w);
      GetEntry(d, i);
    }
  }

  /** r differs from d only in holding (k, v): then so do their lookups. */
  lemma GetAfterUpdate(d: seq<Entry>, r: seq<Entry>, k: string, v: Value)
    requires UniqueKeys(d) && UniqueKeys(r) && (k, v) in r
    requires forall e :: e in r ==> e == (k, v) || e in d
    requires forall e :: e in d && e.0 != k ==> e in r
    ensures Get(r, k) == Some(v)
    ensures forall k' :: k' != k ==> Get(r, k') == Get(d, k')
  {
    GetIsEntry(r, k, v);
    forall k' | k' != k ensures Get(r, k') == Get(d, k') {
      if Get(d, k').Some? {
        GetIsEntry(r, k', Get(d, k').value);
      }
      if Get(r, k').Some? {
        GetIsEntry(d, k', Get(r, k').value);
      }
    }
  }

  /** `d[k] = v`: a key already present keeps its place and takes the new
      value; a new key goes to the end. */
  function Store(d: seq<Entry>, k: string, v: Value): seq<Entry> {
    if k in Keys(d) then d[IndexOf(Keys(d), k) := (k, v)] else d + [(k, v)]
  }

  /** On a dict with distinct keys, `d[k] = v` keeps the keys distinct, makes
      k look up v and leaves every other lookup alone; a present key keeps the
      key order, a new one is appended; no other entry appears. */
  lemma StoreSpec(d: seq<Entry>, k: string, v: Value)
    requires UniqueKeys(d)
    ensures UniqueKeys(Store(d, k, v))
    ensures Get(Store(d, k, v), k) == Some(v)
    ensures forall k' :: k' != k ==> Get(Store(d, k, v), k') == Get(d, k')
    ensures k in Keys(d) ==> Keys(Store(d, k, v)) == Keys(d)
    ensures k !in Keys(d) ==> Store(d, k, v) == d + [(k, v)]
    ensures forall e :: e in Store(d, k, v) ==> e == (k, v) || e in d
  {
    var r := Store(d, k, v);
    if k in Keys(d) {
      var i := IndexOf(Keys(d), k);
      assert r == d[i := (k, v)];
      assert Keys(r) == Keys(d);
      assert forall e :: e in d && e.0 != k ==> e in r by {
        forall e | e in d && e.0 != k ensures e in r {
          var j :| 0 <= j < |d| && d[j] == e;
          assert r[j] == e;
        }
      }
      GetAfterUpdate(d, r, k, v);
    } else {
      GetAfterUpdate(d, r, k, v);
    }
  }

  /** The dict after the assignments `es`, in order. */
  function StoreAll(d: seq<Entry>, es: seq<Entry>): seq<Entry>
    decreases |es|
  {
    if es == [] then d else StoreAll(Store(d, es[0].0, es[0].1), es[1..])
  }

  /** Assigning one entry, and two entries, spelled out. */
  lemma StoreAllOne(d: seq<Entry>, e: Entry)
    ensures StoreAll(d, [e]) == Store(d, e.0, e.1)
  {
    assert [e][1..] == [];
  }

  lemma StoreAllTwo(d: seq<Entry>, e1: Entry, e2: Entry)
    ensures StoreAll(d, [e1, e2]) == Store(Store(d, e1.0, e1.1), e2.0, e2.1)
  {
    assert [e1, e2][1..] == [e2];
    StoreAllOne(Store(d, e1.0, e1.1), e2);
  }

  /** Assigning `a` and then `b` is assigning `a + b`. */
  lemma {:induction false} StoreAllAppend(d: seq<Entry>, a: seq<Entry>, b: seq<Entry>)
    ensures StoreAll(d, a + b) == StoreAll(StoreAll(d, a), b)
    decreases |a|
  {
    if a == [] {
      assert a + b == b;
    } else {
      assert (a + b)[0] == a[0];
      assert (a + b)[1..] == a[1..] + b;
      StoreAllAppend(Store(d, a[0].0, a[0].1), a[1..], b);
    }
  }

  /** Assignments with distinct new keys give exactly the old entries followed
      by the assigned ones, in order; into an empty dict, just the assigned. */
  lemma {:induction false} StoreAllFresh(d: seq<Entry>, es: seq<Entry>)
    requires UniqueKeys(d + es)
    ensures UniqueKeys(d)
    ensures StoreAll(d, es) == d + es
    decreases |es|
  {
    assert forall i :: 0 <= i < |d| ==> (d + es)[i] == d[i];
    if es != [] {
      assert es[0].0 !in Keys(d) by {
        forall i | 0 <= i < |d| ensures d[i].0 != es[0].0 {
          assert (d + es)[|d|] == es[0];
        }
      }
      assert d + es == (d + [es[0]]) + es[1..];
      StoreSpec(d, es[0].0, es[0].1);
      StoreAllFresh(d + [es[0]], es[1..]);
    }
  }

  /** Assigning entries with distinct keys to an empty dict gives them back. */
  lemma StoreAllIntoEmpty(es: seq<Entry>)
    requires UniqueKeys(es)
    ensures StoreAll([], es) == es
  {
    assert [] + es == es;
    StoreAllFresh([], es);
  }

  /** An entry the loader can produce: only the Fourier key holds an array. */
  predicate Admissible(e: Entry) {
    e.1.Coeffs? ==> e.0 == FourierKey
  }

  predicate WellFormed(d: seq<Entry>) {
    UniqueKeys(d) && forall i :: 0 <= i < |d| ==> Admissible(d[i])
  }

  lemma StorePreservesWellFormed(d: seq<Entry>, k: string, v: Value)
    requires WellFormed(d) && Admissible((k, v))
    ensures WellFormed(Store(d, k, v))
  {
    var r := Store(d, k, v);
    StoreSpec(d, k, v);
    forall i | 0 <= i < |r| ensures Admissible(r[i]) {
      assert r[i] in r;
    }
  }

  /** Assigning admissible entries one after the other keeps the dict well
      formed. */
  lemma {:induction false} StoreAllWellFormed(d: seq<Entry>, es: seq<Entry>)
    requires WellFormed(d) && forall i :: 0 <= i < |es| ==> Admissible(es[i])
    ensures WellFormed(StoreAll(d, es))
    decreases |es|
  {
    if es != [] {
      StorePreservesWellFormed(d, es[0].0, es[0].1);
      assert forall i :: 0 <= i < |es[1..]| ==> es[1..][i] == es[i + 1];
      StoreAllWellFormed(Store(d, es[0].0, es[0].1), es[1..]);
    }
  }

  // ---------------------------------------------------------------------------
  // The value comparison of check_standard_model

  /** `value != 1` in Python for the scalar values: True equals 1 and a
      string never does. */
  predicate DiffersFromOne(v: Value)
    requires !v.Coeffs?
  {
    match v
    case Flag(b) => !b
    case Int(i) => i != 1
    case Float(x) => x != 1.0
    case Str(_) => true
  }

  /** The test of check_standard_model on one entry left after removing the
      Fourier key: 'Multiplier' found after the first character, and a value
      other than 1. */
  predicate IsChangedMultiplier(e: Entry)
    requires Admissible(e)
  {
    e.0 != FourierKey && Find(e.0, "Multiplier") > 0 && DiffersFromOne(e.1)
  }

  /** The keys of the changed multipliers, in dict order. */
  function ChangedMultipliers(d: seq<Entry>): seq<string>
    requires forall i :: 0 <= i < |d| ==> Admissible(d[i])
  {
    if d == [] then []
    else
      var last := d[|d| - 1];
      ChangedMultipliers(d[..|d| - 1]) + (if IsChangedMultiplier(last) then [last.0] else [])
  }

  /** Extending a prefix of d by the entry (key, value), not the Fourier
      entry, adds key exactly when check_standard_model's test holds of it:
      'Multiplier' after the first character and a value other than 1. */
  lemma ChangedMultipliersPrefix(d: seq<Entry>, n: nat, key: string, value: Value)
    requires forall i :: 0 <= i < |d| ==> Admissible(d[i])
    requires n < |d| && d[n] == (key, value) && key != FourierKey
    ensures !value.Coeffs?
    ensures ChangedMultipliers(d[..n + 1]) ==
      ChangedMultipliers(d[..n]) + (if Find(key, "Multiplier") > 0 && DiffersFromOne(value) then [key] else [])
  {
    assert d[..n + 1][..n] == d[..n];
    assert d[..n + 1][n] == d[n];
  }

  /** What check_standard_model reports: the Fourier key first when it is
      present, then the changed multipliers. */
  function ModifiedKeys(d: seq<Entry>): seq<string>
    requires forall i :: 0 <= i < |d| ==> Admissible(d[i])
  {
    (if FourierKey in Keys(d) then [FourierKey] else []) + ChangedMultipliers(d)
  }

  lemma {:induction false} ChangedMultipliersMembers(d: seq<Entry>, k: string)
    requires forall i :: 0 <= i < |d| ==> Admissible(d[i])
    ensures k in ChangedMultipliers(d) <==> exists i :: 0 <= i < |d| && d[i].0 == k && IsChangedMultiplier(d[i])
  {
    if d != [] {
      var init := d[..|d| - 1];
      ChangedMultipliersMembers(init, k);
      if exists i :: 0 <= i < |d| && d[i].0 == k && IsChangedMultiplier(d[i]) {
        var i :| 0 <= i < |d| && d[i].0 == k && IsChangedMultiplier(d[i]);
        if i < |d| - 1 {
          assert init[i] == d[i];
        }
      }
      if k in ChangedMultipliers(init) {
        var i :| 0 <= i < |init| && init[i].0 == k && IsChangedMultiplier(init[i]);
        assert d[i] == init[i];
      }
    }
  }

  /** xs is obtained from ys by deleting elements. */
  predicate IsSubsequence(xs: seq<string>, ys: seq<string>) {
    if xs == [] then true
    else if ys == [] then false
    else if xs[|xs| - 1] == ys[|ys| - 1] then IsSubsequence(xs[..|xs| - 1], ys[..|ys| - 1])
    else IsSubsequence(xs, ys[..|ys| - 1])
  }

  lemma {:induction false} SubsequenceExtend(xs: seq<string>, ys: seq<string>, y: string)
    requires IsSubsequence(xs, ys)
    ensures IsSubsequence(xs, ys + [y])
    decreases |xs| + |ys|, 1
  {
    assert (ys + [y])[..|ys|] == ys;
    if xs != [] && xs[|xs| - 1] == y {
      SubsequenceDropLast(xs, ys);
    }
  }

  lemma {:induction false} SubsequenceDropLast(xs: seq<string>, ys: seq<string>)
    requires xs != [] && IsSubsequence(xs, ys)
    ensures IsSubsequence(xs[..|xs| - 1], ys)
    decreases |xs| + |ys|, 0
  {
    var xs', ys' := xs[..|xs| - 1], ys[..|ys| - 1];
    assert ys == ys' + [ys[|ys| - 1]];
    if xs[|xs| - 1] != ys[|ys| - 1] {
      SubsequenceDropLast(xs, ys');
    }
    SubsequenceExtend(xs', ys', ys[|ys| - 1]);
  }

  lemma SubsequenceSnoc(xs: seq<string>, ys: seq<string>, y: string)
    requires IsSubsequence(xs, ys)
    ensures IsSubsequence(xs, ys + [y]) && IsSubsequence(xs + [y], ys + [y])
  {
    SubsequenceExtend(xs, ys, y);
    assert (ys + [y])[..|ys|] == ys;
    assert (xs + [y])[..|xs|] == xs;
  }

  /** The changed multipliers appear in the order of the dict's keys. */
  lemma {:induction false} ChangedMultipliersInKeyOrder(d: seq<Entry>)
    requires forall i :: 0 <= i < |d| ==> Admissible(d[i])
    ensures IsSubsequence(ChangedMultipliers(d), Keys(d))
  {
    if d != [] {
      var init := d[..|d| - 1];
      ChangedMultipliersInKeyOrder(init);
      var last := d[|d| - 1];
      var cm, ks := ChangedMultipliers(init), Keys(init);
      KeysSnoc(d);
      SubsequenceSnoc(cm, ks, last.0);
      if IsChangedMultiplier(last) {
        assert ChangedMultipliers(d) == cm + [last.0];
      } else {
        assert ChangedMultipliers(d) == cm;
      }
    }
  }

  lemma KeysSnoc(d: seq<Entry>)
    requires d != []
    ensures Keys(d) == Keys(d[..|d| - 1]) + [d[|d| - 1].0]
  {
  }

  predicate NoDuplicates(xs: seq<string>) {
    forall i, j :: 0 <= i < j < |xs| ==> xs[i] != xs[j]
  }

  lemma {:induction false} ChangedMultipliersNoDuplicates(d: seq<Entry>)
    requires WellFormed(d)
    ensures NoDuplicates(ChangedMultipliers(d))
    ensures FourierKey !in ChangedMultipliers(d)
  {
    if d != [] {
      var init := d[..|d| - 1];
      var last := d[|d| - 1];
      ChangedMultipliersNoDuplicates(init);
      ChangedMultipliersMembers(init, last.0);
      ChangedMultipliersMembers(d, FourierKey);
    }
  }

  /** check_standard_model's report: the Fourier key first exactly when it is
      present; then exactly the keys that contain 'Multiplier' after their first
      character and hold a value other than 1, each once and in dict order. */
  lemma ModifiedKeysSpec(d: seq<Entry>)
    requires WellFormed(d)
    ensures FourierKey in Keys(d) <==> |ModifiedKeys(d)| > 0 && ModifiedKeys(d)[0] == FourierKey
    ensures forall k :: k in ModifiedKeys(d) <==>
      (k == FourierKey && k in Keys(d))
      || (exists i :: 0 <= i < |d| && d[i].0 == k && IsChangedMultiplier(d[i]))
    ensures NoDuplicates(ModifiedKeys(d))
    ensures IsSubsequence(ChangedMultipliers(d), Keys(d))
    ensures ModifiedKeys(d) == (if FourierKey in Keys(d) then [FourierKey] else []) + ChangedMultipliers(d)
  {
    ChangedMultipliersNoDuplicates(d);
    ChangedMultipliersInKeyOrder(d);
    ChangedMultipliersMembers(d, FourierKey);
    forall k ensures k in ModifiedKeys(d) <==>
      (k == FourierKey && k in Keys(d))
      || (exists i :: 0 <= i < |d| && d[i].0 == k && IsChangedMultiplier(d[i]))
    {
      ChangedMultipliersMembers(d, k);
    }
  }

  /** Nothing is reported when there are no Fourier coefficients and every
      multiplier holds 1. */
  lemma ModifiedKeysEmpty(d: seq<Entry>)
    requires WellFormed(d)
    requires FourierKey !in Keys(d)
    requires forall i :: 0 <= i < |d| && Find(d[i].0, "Multiplier") > 0 ==> !DiffersFromOne(d[i].1)
    ensures ModifiedKeys(d) == []
  {
    if ChangedMultipliers(d) != [] {
      var k := ChangedMultipliers(d)[0];
      ChangedMultipliersMembers(d, k);
    }
  }

  lemma {:induction false} ChangedMultipliersAppend(a: seq<Entry>, b: seq<Entry>)
    requires forall i :: 0 <= i < |a| ==> Admissible(a[i])
    requires forall i :: 0 <= i < |b| ==> Admissible(b[i])
    ensures forall i :: 0 <= i < |a + b| ==> Admissible((a + b)[i])
    ensures ChangedMultipliers(a + b) == ChangedMultipliers(a) + ChangedMultipliers(b)
  {
    assert forall i :: 0 <= i < |a + b| ==> (a + b)[i] == if i < |a| then a[i] else b[i - |a|];
    if b == [] {
      assert a + b == a;
    } else {
      var b' := b[..|b| - 1];
      assert (a + b)[..|a + b| - 1] == a + b';
      ChangedMultipliersAppend(a, b');
    }
  }

  /** The entries without key k; `meta_keys.remove(k)` on the keys. */
  function WithoutKey(d: seq<Entry>, k: string): (r: seq<Entry>)
    requires k in Keys(d)
    ensures |r| == |d| - 1
  {
    var i := IndexOf(Keys(d), k);
    d[..i] + d[i + 1..]
  }

  /** Removing the Fourier key first leaves the same multiplier tests: the key
      list is that of the remaining entries, each of them an entry of d under
      another key, and the changed multipliers are unchanged. */
  lemma RemoveFourierKey(d: seq<Entry>)
    requires WellFormed(d) && FourierKey in Keys(d)
    ensures RemoveFirst(Keys(d), FourierKey) == Keys(WithoutKey(d, FourierKey))
    ensures forall e :: e in WithoutKey(d, FourierKey) ==> e in d && e.0 != FourierKey
    ensures WellFormed(WithoutKey(d, FourierKey))
    ensures ChangedMultipliers(WithoutKey(d, FourierKey)) == ChangedMultipliers(d)
  {
    var i := IndexOf(Keys(d), FourierKey);
    KeysWithout(d, i);
    WithoutEntries(d, i);
    SplitAt(d, i);
    ChangedMultipliersSkipFourier(d[..i], d[i], d[i + 1..]);
    ChangedMultipliersAppend(d[..i], d[i + 1..]);
  }

  /** The entries whose keys check_standard_model runs its multiplier test
      over: those of d, less the Fourier entry when there is one. Each is found
      in d under its own key, none is the Fourier entry, and they hold the same
      changed multipliers as d. */
  function Tested(d: seq<Entry>): (r: seq<Entry>)
    requires WellFormed(d)
    ensures WellFormed(r)
    ensures Keys(r) == if FourierKey in Keys(d) then RemoveFirst(Keys(d), FourierKey) else Keys(d)
    ensures ChangedMultipliers(r) == ChangedMultipliers(d)
  {
    if FourierKey in Keys(d) then
      RemoveFourierKey(d);
      WithoutKey(d, FourierKey)
    else
      d
  }

  /** Each tested entry is what d holds under its key, and is not the Fourier
      entry. */
  lemma TestedEntry(d: seq<Entry>, i: nat)
    requires WellFormed(d) && i < |Tested(d)|
    ensures Tested(d)[i].0 != FourierKey && Get(d, Tested(d)[i].0) == Some(Tested(d)[i].1)
  {
    var r := Tested(d);
    assert r[i] in r;
    if FourierKey in Keys(d) {
      RemoveFourierKey(d);
    }
    GetIsEntry(d, r[i].0, r[i].1);
  }

  lemma KeysWithout(d: seq<Entry>, i: nat)
    requires i < |d|
    ensures Keys(d[..i] + d[i + 1..]) == Keys(d)[..i] + Keys(d)[i + 1..]
  {
  }

  lemma SplitAt(d: seq<Entry>, i: nat)
    requires i < |d|
    ensures d == d[..i] + [d[i]] + d[i + 1..]
  {
  }

  lemma WithoutEntries(d: seq<Entry>, i: nat)
    requires WellFormed(d) && i < |d|
    ensures forall e :: e in d[..i] + d[i + 1..] ==> e in d && e.0 != d[i].0
    ensures WellFormed(d[..i] + d[i + 1..])
  {
    var r := d[..i] + d[i + 1..];
    assert forall j :: 0 <= j < |r| ==> r[j] == if j < i then d[j] else d[j + 1];
  }

  /** The Fourier entry never counts as a changed multiplier. */
  lemma ChangedMultipliersSkipFourier(a: seq<Entry>, e: Entry, b: seq<Entry>)
    requires forall j :: 0 <= j < |a| ==> Admissible(a[j])
    requires forall j :: 0 <= j < |b| ==> Admissible(b[j])
    requires Admissible(e) && e.0 == FourierKey
    ensures forall j :: 0 <= j < |a + [e] + b| ==> Admissible((a + [e] + b)[j])
    ensures ChangedMultipliers(a + [e] + b) == ChangedMultipliers(a) + ChangedMultipliers(b)
  {
    ChangedMultipliersAppend(a, [e]);
    ChangedMultipliersAppend(a + [e], b);
    assert ChangedMultipliers([e]) == [] by {
      assert [e][..0] == [];
    }
  }
}
