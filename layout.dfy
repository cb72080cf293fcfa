/** How the dict built by _generate_metadata is laid out
    (sami2py/_core_class.py:313-369): its keys section by section, the entries
    for given values, and what a lookup and check_standard_model find in it.
    The values are parameters here; module Namelist says where each is read. */
module Layout {
  import opened Wrappers
  import opened Text
  import opened MetaData

  const HeaderKeys: seq<string> :=
    ["fmtout", "F10.7A", "F10.7", "ap", "Neutral Atmosphere Model", "EUV Model", "Ions Used"]

  /** The keys of each section that lines 329-369 assign in one run. */
  const NeutralKeys: seq<string> :=
    ["H Multiplier", "O Multiplier", "NO Multiplier", "O2 Multiplier",
     "He Multiplier", "N2 Multiplier", "N Multiplier"]

  const OtherMultiplierKeys: seq<string> :=
    ["T_exo Multiplier", "T_n Multiplier", "EUV Multiplier", "ExB Drift Multiplier", "Wind Multiplier"]

  const GeometryKeys: seq<string> :=
    ["Wind Model", "rmin", "rmax", "gams", "gamp", "altmin"]

  const RuntimeKeys: seq<string> :=
    ["dthr", "hrinit", "hrpr", "hrmax", "dt0", "maxstep", "denmin"]

  /** The multiplier keys: the neutral multipliers, then the others. */
  const MultiplierKeys: seq<string> := NeutralKeys + OtherMultiplierKeys

  /** The run keys: the wind model and geometry, then the run-time settings. */
  const RunKeys: seq<string> := GeometryKeys + RuntimeKeys

  function DriftKeys(fejer: bool): seq<string> {
    if fejer then ["ExB model"] else ["ExB model", FourierKey]
  }

  /** Pairs the keys of a section with their values. */
  function Zip(ks: seq<string>, vs: seq<Scalar>): (r: seq<Entry>)
    requires |ks| == |vs|
    ensures Keys(r) == ks
    ensures forall i :: 0 <= i < |r| ==> r[i] == (ks[i], vs[i])
    ensures AllAdmissible(r)
  {
    seq(|ks|, i requires 0 <= i < |ks| => (ks[i], vs[i]))
  }

  /** Zipping two aligned concatenations zips the parts. */
  lemma ZipAppend(ks1: seq<string>, vs1: seq<Scalar>, ks2: seq<string>, vs2: seq<Scalar>)
    requires |ks1| == |vs1| && |ks2| == |vs2|
    ensures Zip(ks1 + ks2, vs1 + vs2) == Zip(ks1, vs1) + Zip(ks2, vs2)
  {
  }

  /** The drift-model entries: the model name, and in the Fourier branch the
      coefficients read from exb.inp. */
  function DriftSection(fejer: bool, exbCoeffs: seq<real>): (r: seq<Entry>)
    ensures Keys(r) == DriftKeys(fejer)
    ensures AllAdmissible(r)
  {
    if fejer then [("ExB model", Str("Fejer-Scherliess"))]
    else [("ExB model", Str("Fourier Series")), (FourierKey, Coeffs(exbCoeffs))]
  }

  /** One value for each key of the header, multiplier and run sections. */
  predicate Shaped(hv: seq<Scalar>, mv: seq<Scalar>, rv: seq<Scalar>) {
    |hv| == |HeaderKeys| && |mv| == |MultiplierKeys| && |rv| == |RunKeys|
  }

  /** The dict in the order its entries are assigned: header, multipliers,
      drift model, then wind model, geometry and run-time settings. */
  function Entries(hv: seq<Scalar>, mv: seq<Scalar>, fejer: bool, exbCoeffs: seq<real>, rv: seq<Scalar>): seq<Entry>
    requires Shaped(hv, mv, rv)
  {
    Zip(HeaderKeys, hv) + Zip(MultiplierKeys, mv) + DriftSection(fejer, exbCoeffs) + Zip(RunKeys, rv)
  }

  // ---------------------------------------------------------------------------
  // Distinct keys


  predicate Disjoint(a: seq<string>, b: seq<string>) {
    forall i, j :: 0 <= i < |a| && 0 <= j < |b| ==> a[i] != b[j]
  }

  lemma NoDuplicatesAppend(a: seq<string>, b: seq<string>)
    requires NoDuplicates(a) && NoDuplicates(b) && Disjoint(a, b)
    ensures NoDuplicates(a + b)
  {
    var c := a + b;
    forall i, j | 0 <= i < j < |c| ensures c[i] != c[j] {
      if j < |a| {
        assert c[i] == a[i] && c[j] == a[j];
      } else if i >= |a| {
        assert c[i] == b[i - |a|] && c[j] == b[j - |a|];
      } else {
        assert c[i] == a[i] && c[j] == b[j - |a|];
      }
    }
  }

  lemma DisjointAppend(a: seq<string>, b: seq<string>, c: seq<string>)
    requires Disjoint(a, c) && Disjoint(b, c)
    ensures Disjoint(a + b, c)
  {
    forall i, j | 0 <= i < |a + b| && 0 <= j < |c| ensures (a + b)[i] != c[j] {
      if i < |a| {
        assert (a + b)[i] == a[i];
      } else {
        assert (a + b)[i] == b[i - |a|];
      }
    }
  }

  lemma HeaderKeysDistinct()
    ensures NoDuplicates(HeaderKeys)
  {
  }

  lemma MultiplierKeysDistinct()
    ensures NoDuplicates(MultiplierKeys)
  {
  }

  lemma RunKeysDistinct()
    ensures NoDuplicates(RunKeys)
  {
  }

  lemma HeaderMultiplierDisjoint()
    ensures Disjoint(HeaderKeys, MultiplierKeys)
  {
  }

  lemma DriftDisjoint()
    ensures Disjoint(HeaderKeys, ["ExB model", FourierKey])
    ensures Disjoint(MultiplierKeys, ["ExB model", FourierKey])
    ensures Disjoint(["ExB model", FourierKey], RunKeys)
  {
  }

  lemma HeaderRunDisjoint()
    ensures Disjoint(HeaderKeys, RunKeys)
  {
  }

  lemma MultiplierRunDisjoint()
    ensures Disjoint(MultiplierKeys, RunKeys)
  {
  }

  lemma SectionKeysDistinct()
    ensures NoDuplicates(HeaderKeys) && NoDuplicates(MultiplierKeys) && NoDuplicates(RunKeys)
    ensures Disjoint(HeaderKeys, MultiplierKeys)
    ensures Disjoint(HeaderKeys, ["ExB model", FourierKey])
    ensures Disjoint(MultiplierKeys, ["ExB model", FourierKey])
    ensures Disjoint(HeaderKeys, RunKeys) && Disjoint(MultiplierKeys, RunKeys)
    ensures Disjoint(["ExB model", FourierKey], RunKeys)
  {
    HeaderKeysDistinct();
    MultiplierKeysDistinct();
    RunKeysDistinct();
    HeaderMultiplierDisjoint();
    DriftDisjoint();
    HeaderRunDisjoint();
    MultiplierRunDisjoint();
  }

  lemma UniqueKeysByKeys(d: seq<Entry>)
    requires NoDuplicates(Keys(d))
    ensures UniqueKeys(d)
  {
    assert forall i :: 0 <= i < |d| ==> Keys(d)[i] == d[i].0;
  }

  predicate AllAdmissible(d: seq<Entry>) {
    forall i :: 0 <= i < |d| ==> Admissible(d[i])
  }

  lemma KeysAppend(a: seq<Entry>, b: seq<Entry>)
    ensures Keys(a + b) == Keys(a) + Keys(b)
  {
  }

  lemma AdmissibleAppend(a: seq<Entry>, b: seq<Entry>)
    requires AllAdmissible(a) && AllAdmissible(b)
    ensures AllAdmissible(a + b)
  {
    forall i | 0 <= i < |a + b| ensures Admissible((a + b)[i]) {
      if i < |a| {
        assert (a + b)[i] == a[i];
      } else {
        assert (a + b)[i] == b[i - |a|];
      }
    }
  }

  /** Four sections whose key lists are each free of repeats and pairwise
      disjoint make a dict with distinct keys. */
  lemma UniqueSections(h: seq<Entry>, m: seq<Entry>, dr: seq<Entry>, r: seq<Entry>)
    requires NoDuplicates(Keys(h)) && NoDuplicates(Keys(m)) && NoDuplicates(Keys(dr)) && NoDuplicates(Keys(r))
    requires Disjoint(Keys(h), Keys(m)) && Disjoint(Keys(h), Keys(dr)) && Disjoint(Keys(h), Keys(r))
    requires Disjoint(Keys(m), Keys(dr)) && Disjoint(Keys(m), Keys(r)) && Disjoint(Keys(dr), Keys(r))
    ensures Keys(h + m + dr + r) == Keys(h) + Keys(m) + Keys(dr) + Keys(r)
    ensures UniqueKeys(h + m + dr + r)
  {
    var hk, mk, dk, rk := Keys(h), Keys(m), Keys(dr), Keys(r);
    KeysAppend(h, m);
    KeysAppend(h + m, dr);
    KeysAppend(h + m + dr, r);
    NoDuplicatesAppend(hk, mk);
    DisjointAppend(hk, mk, dk);
    NoDuplicatesAppend(hk + mk, dk);
    DisjointAppend(hk, mk, rk);
    DisjointAppend(hk + mk, dk, rk);
    NoDuplicatesAppend(hk + mk + dk, rk);
    UniqueKeysByKeys(h + m + dr + r);
  }

  lemma SectionsWellFormed(h: seq<Entry>, m: seq<Entry>, dr: seq<Entry>, r: seq<Entry>, fejer: bool)
    requires Keys(h) == HeaderKeys && Keys(m) == MultiplierKeys
    requires Keys(dr) == DriftKeys(fejer) && Keys(r) == RunKeys
    requires AllAdmissible(h) && AllAdmissible(m) && AllAdmissible(dr) && AllAdmissible(r)
    ensures WellFormed(h + m + dr + r)
    ensures Keys(h + m + dr + r) == HeaderKeys + MultiplierKeys + DriftKeys(fejer) + RunKeys
  {
    SectionKeysDistinct();
    UniqueSections(h, m, dr, r);
    AdmissibleAppend(h, m);
    AdmissibleAppend(h + m, dr);
    AdmissibleAppend(h + m + dr, r);
  }

  /** The dict has distinct keys in the order of assignment, with the Fourier
      key (the only array) exactly in the Fourier branch. */
  lemma EntriesWellFormed(hv: seq<Scalar>, mv: seq<Scalar>, fejer: bool, exbCoeffs: seq<real>, rv: seq<Scalar>)
    requires Shaped(hv, mv, rv)
    ensures WellFormed(Entries(hv, mv, fejer, exbCoeffs, rv))
    ensures Keys(Entries(hv, mv, fejer, exbCoeffs, rv)) == HeaderKeys + MultiplierKeys + DriftKeys(fejer) + RunKeys
  {
    SectionsWellFormed(Zip(HeaderKeys, hv), Zip(MultiplierKeys, mv), DriftSection(fejer, exbCoeffs), Zip(RunKeys, rv), fejer);
  }

  // ---------------------------------------------------------------------------
  // Lookups


  /** Every entry of a section of a dict with distinct keys is what Get finds
      for its key. */
  lemma LookupSection(e: seq<Entry>, pre: seq<Entry>, s: seq<Entry>, post: seq<Entry>)
    requires UniqueKeys(e) && e == pre + s + post
    ensures forall i :: 0 <= i < |s| ==> Get(e, s[i].0) == Some(s[i].1)
  {
    forall i | 0 <= i < |s| ensures Get(e, s[i].0) == Some(s[i].1) {
      assert e[|pre| + i] == s[i];
      GetEntry(e, |pre| + i);
    }
  }

  lemma FourierKeyOnlyInDrift()
    ensures FourierKey !in HeaderKeys && FourierKey !in MultiplierKeys && FourierKey !in RunKeys
  {
  }

  /** The Fourier key is among the keys exactly in the Fourier branch. */
  lemma FourierKeyInSections(fejer: bool)
    ensures FourierKey in HeaderKeys + MultiplierKeys + DriftKeys(fejer) + RunKeys <==> !fejer
  {
    FourierKeyOnlyInDrift();
  }

  /** The dict has distinct keys. */
  lemma EntriesUnique(hv: seq<Scalar>, mv: seq<Scalar>, fejer: bool, exbCoeffs: seq<real>, rv: seq<Scalar>)
    requires Shaped(hv, mv, rv)
    ensures UniqueKeys(Entries(hv, mv, fejer, exbCoeffs, rv))
  {
    EntriesWellFormed(hv, mv, fejer, exbCoeffs, rv);
  }

  /** Each header key finds its own value. */
  lemma HeaderLookups(hv: seq<Scalar>, mv: seq<Scalar>, fejer: bool, exbCoeffs: seq<real>, rv: seq<Scalar>)
    requires Shaped(hv, mv, rv)
    ensures forall i :: 0 <= i < |HeaderKeys| ==> Get(Entries(hv, mv, fejer, exbCoeffs, rv), HeaderKeys[i]) == Some(hv[i])
  {
    var h, m, dr, r := Zip(HeaderKeys, hv), Zip(MultiplierKeys, mv), DriftSection(fejer, exbCoeffs), Zip(RunKeys, rv);
    EntriesUnique(hv, mv, fejer, exbCoeffs, rv);
    assert h + m + dr + r == [] + h + (m + dr + r);
    LookupSection(h + m + dr + r, [], h, m + dr + r);
  }

  /** Each multiplier key finds its own value. */
  lemma MultiplierLookups(hv: seq<Scalar>, mv: seq<Scalar>, fejer: bool, exbCoeffs: seq<real>, rv: seq<Scalar>)
    requires Shaped(hv, mv, rv)
    ensures forall i :: 0 <= i < |MultiplierKeys| ==> Get(Entries(hv, mv, fejer, exbCoeffs, rv), MultiplierKeys[i]) == Some(mv[i])
  {
    var h, m, dr, r := Zip(HeaderKeys, hv), Zip(MultiplierKeys, mv), DriftSection(fejer, exbCoeffs), Zip(RunKeys, rv);
    EntriesUnique(hv, mv, fejer, exbCoeffs, rv);
    assert h + m + dr + r == h + m + (dr + r);
    LookupSection(h + m + dr + r, h, m, dr + r);
  }

  /** Each key of the run section finds its own value. */
  lemma RunLookups(hv: seq<Scalar>, mv: seq<Scalar>, fejer: bool, exbCoeffs: seq<real>, rv: seq<Scalar>)
    requires Shaped(hv, mv, rv)
    ensures forall i :: 0 <= i < |RunKeys| ==> Get(Entries(hv, mv, fejer, exbCoeffs, rv), RunKeys[i]) == Some(rv[i])
  {
    var h, m, dr, r := Zip(HeaderKeys, hv), Zip(MultiplierKeys, mv), DriftSection(fejer, exbCoeffs), Zip(RunKeys, rv);
    EntriesUnique(hv, mv, fejer, exbCoeffs, rv);
    assert h + m + dr + r == h + m + dr + r + [];
    LookupSection(h + m + dr + r, h + m + dr, r, []);
  }

  /** The header keys after 'fmtout' that take a single read or a fixed
      name find the header values 1 to 5. */
  lemma HeaderKeyLookups(hv: seq<Scalar>, mv: seq<Scalar>, fejer: bool, exbCoeffs: seq<real>, rv: seq<Scalar>)
    requires Shaped(hv, mv, rv)
    ensures var e := Entries(hv, mv, fejer, exbCoeffs, rv);
      && Get(e, "F10.7A") == Some(hv[1]) && Get(e, "F10.7") == Some(hv[2]) && Get(e, "ap") == Some(hv[3])
      && Get(e, "Neutral Atmosphere Model") == Some(hv[4]) && Get(e, "EUV Model") == Some(hv[5])
  {
    HeaderLookups(hv, mv, fejer, exbCoeffs, rv);
    HeaderKeyNames();
  }

  /** The five multipliers after the neutral ones find the multiplier values
      7 to 11. */
  lemma OtherMultiplierKeyLookups(hv: seq<Scalar>, mv: seq<Scalar>, fejer: bool, exbCoeffs: seq<real>, rv: seq<Scalar>)
    requires Shaped(hv, mv, rv)
    ensures var e := Entries(hv, mv, fejer, exbCoeffs, rv);
      && Get(e, "T_exo Multiplier") == Some(mv[7]) && Get(e, "T_n Multiplier") == Some(mv[8])
      && Get(e, "EUV Multiplier") == Some(mv[9]) && Get(e, "ExB Drift Multiplier") == Some(mv[10])
      && Get(e, "Wind Multiplier") == Some(mv[11])
  {
    MultiplierLookups(hv, mv, fejer, exbCoeffs, rv);
    OtherMultiplierKeyNames();
  }

  /** The geometry keys find the run values 1 to 5. */
  lemma GeometryKeyLookups(hv: seq<Scalar>, mv: seq<Scalar>, fejer: bool, exbCoeffs: seq<real>, rv: seq<Scalar>)
    requires Shaped(hv, mv, rv)
    ensures var e := Entries(hv, mv, fejer, exbCoeffs, rv);
      && Get(e, "rmin") == Some(rv[1]) && Get(e, "rmax") == Some(rv[2]) && Get(e, "gams") == Some(rv[3])
      && Get(e, "gamp") == Some(rv[4]) && Get(e, "altmin") == Some(rv[5])
  {
    RunLookups(hv, mv, fejer, exbCoeffs, rv);
    GeometryKeyNames();
  }

  /** The run-time keys find the run values 6 to 12. */
  lemma RuntimeKeyLookups(hv: seq<Scalar>, mv: seq<Scalar>, fejer: bool, exbCoeffs: seq<real>, rv: seq<Scalar>)
    requires Shaped(hv, mv, rv)
    ensures var e := Entries(hv, mv, fejer, exbCoeffs, rv);
      && Get(e, "dthr") == Some(rv[6]) && Get(e, "hrinit") == Some(rv[7]) && Get(e, "hrpr") == Some(rv[8])
      && Get(e, "hrmax") == Some(rv[9]) && Get(e, "dt0") == Some(rv[10]) && Get(e, "maxstep") == Some(rv[11])
      && Get(e, "denmin") == Some(rv[12])
  {
    RunLookups(hv, mv, fejer, exbCoeffs, rv);
    RuntimeKeyNames();
  }

  // The key names at the positions the lookups above use.

  lemma HeaderKeyNames()
    ensures HeaderKeys[1] == "F10.7A" && HeaderKeys[2] == "F10.7" && HeaderKeys[3] == "ap"
    ensures HeaderKeys[4] == "Neutral Atmosphere Model" && HeaderKeys[5] == "EUV Model"
  {
  }

  lemma OtherMultiplierKeyNames()
    ensures MultiplierKeys[7] == "T_exo Multiplier" && MultiplierKeys[8] == "T_n Multiplier"
    ensures MultiplierKeys[9] == "EUV Multiplier" && MultiplierKeys[10] == "ExB Drift Multiplier"
    ensures MultiplierKeys[11] == "Wind Multiplier"
  {
  }

  lemma GeometryKeyNames()
    ensures RunKeys[1] == "rmin" && RunKeys[2] == "rmax" && RunKeys[3] == "gams"
    ensures RunKeys[4] == "gamp" && RunKeys[5] == "altmin"
  {
  }

  lemma RuntimeKeyNames()
    ensures RunKeys[6] == "dthr" && RunKeys[7] == "hrinit" && RunKeys[8] == "hrpr" && RunKeys[9] == "hrmax"
    ensures RunKeys[10] == "dt0" && RunKeys[11] == "maxstep" && RunKeys[12] == "denmin"
  {
  }

  /** The first run key is the wind model's. */
  lemma WindModelEntry(hv: seq<Scalar>, mv: seq<Scalar>, fejer: bool, exbCoeffs: seq<real>, rv: seq<Scalar>)
    requires Shaped(hv, mv, rv)
    ensures Get(Entries(hv, mv, fejer, exbCoeffs, rv), "Wind Model") == Some(rv[0])
  {
    RunLookups(hv, mv, fejer, exbCoeffs, rv);
    assert RunKeys[0] == "Wind Model";
  }

  /** The drift model is named after the branch; the Fourier key is present
      exactly in the Fourier branch, and then holds the coefficients. */
  lemma DriftLookups(hv: seq<Scalar>, mv: seq<Scalar>, fejer: bool, exbCoeffs: seq<real>, rv: seq<Scalar>)
    requires Shaped(hv, mv, rv)
    ensures var e := Entries(hv, mv, fejer, exbCoeffs, rv);
      && Get(e, "ExB model") == Some(Str(if fejer then "Fejer-Scherliess" else "Fourier Series"))
      && (FourierKey in Keys(e) <==> !fejer)
      && (!fejer ==> Get(e, FourierKey) == Some(Coeffs(exbCoeffs)))
  {
    var h, m, dr, r := Zip(HeaderKeys, hv), Zip(MultiplierKeys, mv), DriftSection(fejer, exbCoeffs), Zip(RunKeys, rv);
    EntriesWellFormed(hv, mv, fejer, exbCoeffs, rv);
    LookupSection(h + m + dr + r, h + m, dr, r);
    assert dr[0].0 == "ExB model";
    if !fejer {
      assert dr[1] == (FourierKey, Coeffs(exbCoeffs));
    }
    FourierKeyInSections(fejer);
  }

  // ---------------------------------------------------------------------------
  // check_standard_model on the generated dict


  /** Find gives -1 when `sub` holds a character that `s` does not. */
  lemma NotFoundWithout(s: string, sub: string, q: nat)
    requires q < |sub| && forall p :: 0 <= p < |s| ==> s[p] != sub[q]
    ensures Find(s, sub) == -1
  {
    forall p | 0 <= p ensures !OccursAt(s, sub, p) {
      if p + |sub| <= |s| {
        assert s[p..p + |sub|][q] == s[p + q];
      }
    }
  }

  /** A key that ends in `sub` and does not start with it finds `sub` after
      its first character. */
  lemma FoundAfterStart(s: string, sub: string)
    requires 0 < |sub| < |s| && s[|s| - |sub|..] == sub && s[0] != sub[0]
    ensures Find(s, sub) > 0
  {
    assert OccursAt(s, sub, |s| - |sub|);
    assert !OccursAt(s, sub, 0) by {
      assert s[0..|sub|][0] == s[0];
    }
  }

  lemma HeaderKeysNotMultipliers()
    ensures forall i :: 0 <= i < |HeaderKeys| ==> Find(HeaderKeys[i], "Multiplier") < 0
  {
    NotFoundWithout("Neutral Atmosphere Model", "Multiplier", 4);
  }

  lemma RunKeysNotMultipliers()
    ensures forall i :: 0 <= i < |RunKeys| ==> Find(RunKeys[i], "Multiplier") < 0
  {
    NotFoundWithout("Wind Model", "Multiplier", 1);
  }

  /** Every multiplier key ends in 'Multiplier' and starts with another
      letter. */
  lemma MultiplierKeysAreMultipliers()
    ensures forall i :: 0 <= i < |MultiplierKeys| ==> Find(MultiplierKeys[i], "Multiplier") > 0
  {
    MultiplierKeysFound1();
    MultiplierKeysFound2();
    MultiplierKeysFound3();
    MultiplierKeysFound4();
  }

  /** The H, O and NO multiplier keys. */
  lemma MultiplierKeysFound1()
    ensures forall i :: 0 <= i < 3 ==> Find(MultiplierKeys[i], "Multiplier") > 0
  {
    forall i | 0 <= i < 3 ensures Find(MultiplierKeys[i], "Multiplier") > 0 {
      FoundAfterStart(MultiplierKeys[i], "Multiplier");
    }
  }

  /** The O2, He and N2 multiplier keys. */
  lemma MultiplierKeysFound2()
    ensures forall i :: 3 <= i < 6 ==> Find(MultiplierKeys[i], "Multiplier") > 0
  {
    forall i | 3 <= i < 6 ensures Find(MultiplierKeys[i], "Multiplier") > 0 {
      FoundAfterStart(MultiplierKeys[i], "Multiplier");
    }
  }

  /** The N, T_exo and T_n multiplier keys. */
  lemma MultiplierKeysFound3()
    ensures forall i :: 6 <= i < 9 ==> Find(MultiplierKeys[i], "Multiplier") > 0
  {
    forall i | 6 <= i < 9 ensures Find(MultiplierKeys[i], "Multiplier") > 0 {
      FoundAfterStart(MultiplierKeys[i], "Multiplier");
    }
  }

  /** The EUV, ExB Drift and Wind multiplier keys. */
  lemma MultiplierKeysFound4()
    ensures forall i :: 9 <= i < 12 ==> Find(MultiplierKeys[i], "Multiplier") > 0
  {
    forall i | 9 <= i < 12 ensures Find(MultiplierKeys[i], "Multiplier") > 0 {
      FoundAfterStart(MultiplierKeys[i], "Multiplier");
    }
  }

  /** Keys check_standard_model never reports: the Fourier key (removed
      before the loop) and keys without 'Multiplier' after the first character. */
  predicate NoMultiplierKeys(ks: seq<string>) {
    forall i :: 0 <= i < |ks| ==> ks[i] == FourierKey || Find(ks[i], "Multiplier") <= 0
  }

  /** Keys check_standard_model tests for a value other than 1. */
  predicate OnlyMultiplierKeys(ks: seq<string>) {
    forall i :: 0 <= i < |ks| ==> ks[i] != FourierKey && Find(ks[i], "Multiplier") > 0
  }

  /** Of the generated keys, exactly those of the multiplier section are
      tested. */
  lemma KeyClasses()
    ensures NoMultiplierKeys(HeaderKeys) && NoMultiplierKeys(RunKeys)
    ensures NoMultiplierKeys(DriftKeys(true)) && NoMultiplierKeys(DriftKeys(false))
    ensures OnlyMultiplierKeys(MultiplierKeys)
  {
    HeaderKeysNotMultipliers();
    RunKeysNotMultipliers();
    MultiplierKeysAreMultipliers();
    FourierKeyOnlyInDrift();
  }

  /** A section whose keys are never tested contributes nothing. */
  lemma {:induction false} NoChangedMultipliers(d: seq<Entry>)
    requires AllAdmissible(d) && NoMultiplierKeys(Keys(d))
    ensures ChangedMultipliers(d) == []
  {
    if d != [] {
      var init := d[..|d| - 1];
      assert Keys(d)[|d| - 1] == d[|d| - 1].0;
      assert forall i :: 0 <= i < |init| ==> Keys(init)[i] == Keys(d)[i];
      NoChangedMultipliers(init);
    }
  }

  /** The changed multipliers of the four sections are those of the
      multiplier section. */
  lemma ChangedMultipliersOfSections(h: seq<Entry>, m: seq<Entry>, dr: seq<Entry>, r: seq<Entry>)
    requires AllAdmissible(h) && AllAdmissible(m) && AllAdmissible(dr) && AllAdmissible(r)
    requires NoMultiplierKeys(Keys(h)) && NoMultiplierKeys(Keys(dr)) && NoMultiplierKeys(Keys(r))
    ensures AllAdmissible(h + m + dr + r)
    ensures ChangedMultipliers(h + m + dr + r) == ChangedMultipliers(m)
  {
    NoChangedMultipliers(h);
    NoChangedMultipliers(dr);
    NoChangedMultipliers(r);
    ChangedMultipliersAppend(h, m);
    ChangedMultipliersAppend(h + m, dr);
    ChangedMultipliersAppend(h + m + dr, r);
  }

  /** In a section of tested keys without repeats holding floats, a key is
      reported exactly when its value is not 1.0. */
  lemma MultiplierChanges(m: seq<Entry>)
    requires AllAdmissible(m) && NoDuplicates(Keys(m)) && OnlyMultiplierKeys(Keys(m))
    requires forall i :: 0 <= i < |m| ==> m[i].1.Float?
    ensures forall i :: 0 <= i < |m| ==> (m[i].0 in ChangedMultipliers(m) <==> m[i].1 != Float(1.0))
    ensures ChangedMultipliers(m) == [] <==> forall i :: 0 <= i < |m| ==> m[i].1 == Float(1.0)
  {
    forall i | 0 <= i < |m|
      ensures m[i].0 in ChangedMultipliers(m) <==> m[i].1 != Float(1.0)
    {
      MultiplierChanged(m, i);
    }
    if ChangedMultipliers(m) != [] {
      var k := ChangedMultipliers(m)[0];
      ChangedMultipliersMembers(m, k);
      var j :| 0 <= j < |m| && m[j].0 == k && IsChangedMultiplier(m[j]);
      assert m[j].1 != Float(1.0);
    }
  }

  lemma MultiplierChanged(m: seq<Entry>, i: nat)
    requires AllAdmissible(m) && NoDuplicates(Keys(m)) && OnlyMultiplierKeys(Keys(m))
    requires i < |m| && m[i].1.Float?
    ensures m[i].0 in ChangedMultipliers(m) <==> m[i].1 != Float(1.0)
  {
    var k := m[i].0;
    assert Keys(m)[i] == k;
    ChangedMultipliersMembers(m, k);
    if k in ChangedMultipliers(m) {
      var j :| 0 <= j < |m| && m[j].0 == k && IsChangedMultiplier(m[j]);
      assert Keys(m)[j] == k;
      assert j == i;
    } else {
      assert !IsChangedMultiplier(m[i]);
    }
  }

  /** Four sections of which only the second holds tested keys, all distinct
      and all holding floats: check_standard_model reports the Fourier key when
      present, then the second section's keys whose value is not 1.0. */
  lemma StandardModelOfSections(h: seq<Entry>, m: seq<Entry>, dr: seq<Entry>, r: seq<Entry>)
    requires AllAdmissible(h) && AllAdmissible(m) && AllAdmissible(dr) && AllAdmissible(r)
    requires NoMultiplierKeys(Keys(h)) && NoMultiplierKeys(Keys(dr)) && NoMultiplierKeys(Keys(r))
    requires OnlyMultiplierKeys(Keys(m)) && NoDuplicates(Keys(m))
    requires forall i :: 0 <= i < |m| ==> m[i].1.Float?
    ensures AllAdmissible(h + m + dr + r)
    ensures ModifiedKeys(h + m + dr + r) ==
      (if FourierKey in Keys(h + m + dr + r) then [FourierKey] else []) + ChangedMultipliers(m)
    ensures forall i :: 0 <= i < |m| ==> (m[i].0 in ChangedMultipliers(m) <==> m[i].1 != Float(1.0))
    ensures ChangedMultipliers(m) == [] <==> forall i :: 0 <= i < |m| ==> m[i].1 == Float(1.0)
  {
    ChangedMultipliersOfSections(h, m, dr, r);
    MultiplierChanges(m);
  }

  /** check_standard_model on the dict, when the multipliers are floats: the
      Fourier key in the Fourier branch, then the multipliers that are not 1.0
      in their order; nothing at all exactly when the drift model is
      Fejer-Scherliess and every multiplier is 1.0. */
  lemma StandardModelOfEntries(hv: seq<Scalar>, mv: seq<Scalar>, fejer: bool, exbCoeffs: seq<real>, rv: seq<Scalar>)
    requires Shaped(hv, mv, rv)
    requires forall i :: 0 <= i < |mv| ==> mv[i].Float?
    ensures WellFormed(Entries(hv, mv, fejer, exbCoeffs, rv))
    ensures ModifiedKeys(Entries(hv, mv, fejer, exbCoeffs, rv)) ==
      (if fejer then [] else [FourierKey]) + ChangedMultipliers(Zip(MultiplierKeys, mv))
    ensures forall i :: 0 <= i < |mv| ==> (MultiplierKeys[i] in ChangedMultipliers(Zip(MultiplierKeys, mv)) <==> mv[i] != Float(1.0))
    ensures ChangedMultipliers(Zip(MultiplierKeys, mv)) == [] <==> forall i :: 0 <= i < |mv| ==> mv[i] == Float(1.0)
    ensures ModifiedKeys(Entries(hv, mv, fejer, exbCoeffs, rv)) == [] <==> fejer && forall i :: 0 <= i < |mv| ==> mv[i] == Float(1.0)
  {
    var m := Zip(MultiplierKeys, mv);
    EntriesWellFormed(hv, mv, fejer, exbCoeffs, rv);
    FourierKeyInSections(fejer);
    KeyClasses();
    MultiplierKeysDistinct();
    StandardModelOfSections(Zip(HeaderKeys, hv), m, DriftSection(fejer, exbCoeffs), Zip(RunKeys, rv));
    assert forall i :: 0 <= i < |mv| ==> m[i] == (MultiplierKeys[i], mv[i]);
  }
}
