/** The run object of sami2py/_core_class.py: its identity, the namelist it
    read, and the MetaData dict that _generate_metadata fills assignment by
    assignment (lines 289-369) and check_standard_model inspects (lines
    371-409). */
module SamiModel {
  import opened Wrappers
  import opened Text
  import opened Slices
  import opened Tokens
  import opened MetaData
  import opened Layout
  import opened Namelist

  /** How a load ends: every read succeeded, or one of them raised
      IndexError (a missing line or a missing token). */
  datatype Outcome = Pass | IndexError

  /** The assignments of _generate_metadata, in its order and grouped by
      `_generate_metadata`'s own sections, give the dict of NamelistEntries. */
  lemma EntriesInSections(d: seq<Entry>, nl: seq<string>, exbCoeffs: seq<real>)
    requires Readable(nl)
    ensures
      var d1 := StoreAll(d, Zip(HeaderKeys, HeaderValues(nl)));
      var d2 := StoreAll(d1, Zip(NeutralKeys, NeutralValues(nl)));
      var d3 := StoreAll(d2, Zip(OtherMultiplierKeys, OtherMultiplierValues(nl)));
      var d4 := StoreAll(d3, DriftSection(FejerScherliess(nl), exbCoeffs));
      var d5 := StoreAll(d4, Zip(GeometryKeys, GeometryValues(nl)));
      StoreAll(d, NamelistEntries(nl, exbCoeffs)) == StoreAll(d5, Zip(RuntimeKeys, RuntimeValues(nl)))
  {
    var h := Zip(HeaderKeys, HeaderValues(nl));
    var n, o := Zip(NeutralKeys, NeutralValues(nl)), Zip(OtherMultiplierKeys, OtherMultiplierValues(nl));
    var dr := DriftSection(FejerScherliess(nl), exbCoeffs);
    var g, r := Zip(GeometryKeys, GeometryValues(nl)), Zip(RuntimeKeys, RuntimeValues(nl));
    NamelistSections(nl, exbCoeffs);
    StoreAllAppend(d, h + n + o + dr + g, r);
    StoreAllAppend(d, h + n + o + dr, g);
    StoreAllAppend(d, h + n + o, dr);
    StoreAllAppend(d, h + n, o);
    StoreAllAppend(d, h, n);
  }

  class Model {
    /** The run's identity: its tag, longitude, year, day and flags. */
    const tag: string
    const lon0: int
    const year: int
    const day: int
    const outn: bool
    const test: bool

    /** The lines of the namelist file. */
    var namelist: seq<string>
    /** The MetaData dict, entries in insertion order. */
    var metaData: seq<Entry>

    /** The dict has distinct keys and only the Fourier key holds an array. */
    ghost predicate Valid()
      reads this
    {
      WellFormed(metaData)
    }

    /** The identity assignments of __init__ (lines 85-90); the load it then
        starts is LoadNamelist. */
    constructor (tag: string, lon: int, year: int, day: int, outn: bool, test: bool)
      ensures this.tag == tag && lon0 == lon && this.year == year && this.day == day
      ensures this.outn == outn && this.test == test
      ensures namelist == [] && metaData == []
      ensures Valid()
    {
      this.tag := tag;
      lon0 := lon;
      this.year := year;
      this.day := day;
      this.outn := outn;
      this.test := test;
      namelist := [];
      metaData := [];
    }

    /** Lines 313-326: the output format, the solar and geomagnetic inputs,
        the fixed model names and the ions in use. */
    method StoreHeader(nl: seq<string>) returns (outcome: Outcome)
      requires Valid()
      modifies this`metaData
      ensures Valid()
      ensures outcome == Pass <==> HeaderReadable(nl)
      ensures outcome == Pass ==> metaData == StoreAll(old(metaData), Zip(HeaderKeys, HeaderValues(nl)))
    {
      if !(HeaderReadable(nl)) {
        return IndexError;
      }
      StoreAllWellFormed(metaData, Zip(HeaderKeys, HeaderValues(nl)));
      metaData := StoreAll(metaData, Zip(HeaderKeys, HeaderValues(nl)));
      return Pass;
    }

    /** Lines 329-336: the seven neutral-density multipliers, the first seven
        float tokens of line 28. */
    method StoreNeutralMultipliers(nl: seq<string>) returns (outcome: Outcome)
      requires Valid()
      modifies this`metaData
      ensures Valid()
      ensures outcome == Pass <==> HasFloat(nl, 28, 6)
      ensures outcome == Pass ==> metaData == StoreAll(old(metaData), Zip(NeutralKeys, NeutralValues(nl)))
    {
      if !(HasFloat(nl, 28, 6)) {
        return IndexError;
      }
      StoreAllWellFormed(metaData, Zip(NeutralKeys, NeutralValues(nl)));
      metaData := StoreAll(metaData, Zip(NeutralKeys, NeutralValues(nl)));
      return Pass;
    }

    /** Lines 337-341: the exospheric temperature, neutral temperature, EUV,
        drift and wind multipliers. */
    method StoreOtherMultipliers(nl: seq<string>) returns (outcome: Outcome)
      requires Valid()
      modifies this`metaData
      ensures Valid()
      ensures outcome == Pass <==> OtherMultipliersReadable(nl)
      ensures outcome == Pass ==> metaData == StoreAll(old(metaData), Zip(OtherMultiplierKeys, OtherMultiplierValues(nl)))
    {
      if !(OtherMultipliersReadable(nl)) {
        return IndexError;
      }
      StoreAllWellFormed(metaData, Zip(OtherMultiplierKeys, OtherMultiplierValues(nl)));
      metaData := StoreAll(metaData, Zip(OtherMultiplierKeys, OtherMultiplierValues(nl)));
      return Pass;
    }

    /** Lines 343-350: line 10 selects the drift model; the Fourier branch
        also stores the coefficients read from exb.inp, given here as
        exbCoeffs. */
    method StoreDrift(nl: seq<string>, exbCoeffs: seq<real>) returns (outcome: Outcome)
      requires Valid()
      modifies this`metaData
      ensures Valid()
      ensures outcome == Pass <==> |nl| > 10
      ensures outcome == Pass ==> metaData == StoreAll(old(metaData), DriftSection(FejerScherliess(nl), exbCoeffs))
    {
      if |nl| <= 10 {
        return IndexError;
      }
      StoreAllWellFormed(metaData, DriftSection(FejerScherliess(nl), exbCoeffs));
      if Contains(nl[10], ".true.") {
        StoreAllOne(metaData, ("ExB model", Str("Fejer-Scherliess")));
        metaData := Store(metaData, "ExB model", Str("Fejer-Scherliess"));
      } else {
        StoreAllTwo(metaData, ("ExB model", Str("Fourier Series")), (FourierKey, Coeffs(exbCoeffs)));
        metaData := Store(metaData, "ExB model", Str("Fourier Series"));
        metaData := Store(metaData, FourierKey, Coeffs(exbCoeffs));
      }
      return Pass;
    }

    /** Lines 352-360: the wind model and the grid geometry. */
    method StoreGeometry(nl: seq<string>) returns (outcome: Outcome)
      requires Valid()
      modifies this`metaData
      ensures Valid()
      ensures outcome == Pass <==> GeometryReadable(nl)
      ensures outcome == Pass ==> metaData == StoreAll(old(metaData), Zip(GeometryKeys, GeometryValues(nl)))
    {
      if !(GeometryReadable(nl)) {
        return IndexError;
      }
      StoreAllWellFormed(metaData, Zip(GeometryKeys, GeometryValues(nl)));
      metaData := StoreAll(metaData, Zip(GeometryKeys, GeometryValues(nl)));
      return Pass;
    }

    /** Lines 363-369: the run-time settings. */
    method StoreRuntime(nl: seq<string>) returns (outcome: Outcome)
      requires Valid()
      modifies this`metaData
      ensures Valid()
      ensures outcome == Pass <==> RuntimeReadable(nl)
      ensures outcome == Pass ==> metaData == StoreAll(old(metaData), Zip(RuntimeKeys, RuntimeValues(nl)))
    {
      if !(RuntimeReadable(nl)) {
        return IndexError;
      }
      StoreAllWellFormed(metaData, Zip(RuntimeKeys, RuntimeValues(nl)));
      metaData := StoreAll(metaData, Zip(RuntimeKeys, RuntimeValues(nl)));
      return Pass;
    }

    /** _generate_metadata (lines 289-369): it passes exactly when every read
        succeeds, and then the dict holds NamelistEntries assigned over what
        it held before. */
    method GenerateMetadata(nl: seq<string>, exbCoeffs: seq<real>) returns (outcome: Outcome)
      requires Valid()
      modifies this`metaData
      ensures Valid()
      ensures outcome == Pass <==> Readable(nl)
      ensures outcome == Pass ==> metaData == StoreAll(old(metaData), NamelistEntries(nl, exbCoeffs))
    {
      if !Readable(nl) {
        return IndexError;
      }
      ghost var base := metaData;
      EntriesInSections(base, nl, exbCoeffs);
      // Readable(nl) is the conjunction of every section's readability, so
      // none of the six calls below returns IndexError: each passes.
      outcome := StoreHeader(nl);
      outcome := StoreNeutralMultipliers(nl);
      outcome := StoreOtherMultipliers(nl);
      outcome := StoreDrift(nl, exbCoeffs);
      outcome := StoreGeometry(nl);
      outcome := StoreRuntime(nl);
    }

    /** Lines 202-207 of _load_model: keep the namelist lines, start from an
        empty dict and generate the metadata, which is then exactly
        NamelistEntries. */
    method LoadNamelist(lines: seq<string>, exbCoeffs: seq<real>) returns (outcome: Outcome)
      modifies this`namelist, this`metaData
      ensures Valid()
      ensures namelist == lines
      ensures outcome == Pass <==> Readable(lines)
      ensures outcome == Pass ==> metaData == NamelistEntries(lines, exbCoeffs)
    {
      namelist := lines;
      metaData := [];
      outcome := GenerateMetadata(namelist, exbCoeffs);
      if outcome == Pass {
        NamelistEntriesWellFormed(lines, exbCoeffs);
        StoreAllIntoEmpty(NamelistEntries(lines, exbCoeffs));
      }
    }

    /** Lines 394-402 of check_standard_model: the Fourier key, when the dict
        holds it, is reported first and taken out of the keys still to test;
        the keys left are those of the tested entries, in dict order. */
    static method TakeFourierKey(meta: seq<Entry>) returns (modKeys: seq<string>, metaKeys: seq<string>)
      requires WellFormed(meta)
      ensures modKeys == if FourierKey in Keys(meta) then [FourierKey] else []
      ensures metaKeys == Keys(Tested(meta))
    {
      modKeys := [];
      metaKeys := Keys(meta);
      var mkey := FourierKey;
      if mkey in metaKeys {
        modKeys := modKeys + [mkey];
        metaKeys := RemoveFirst(metaKeys, mkey);
      }
    }

    /** check_standard_model (lines 371-409): the Fourier key when present,
        then, over the other keys in dict order, each key holding
        'Multiplier' after its first character whose value is not 1. */
    method CheckStandardModel() returns (modKeys: seq<string>)
      requires Valid()
      ensures modKeys == ModifiedKeys(metaData)
    {
      var meta := metaData;
      var metaKeys, changed;
      modKeys, metaKeys := TakeFourierKey(meta);
      changed := TestMultipliers(meta, metaKeys);
      modKeys := modKeys + changed;
    }

    /** Lines 404-407 of check_standard_model: over the keys left, in dict
        order, the keys holding 'Multiplier' after their first character whose
        value is not 1. */
    static method TestMultipliers(meta: seq<Entry>, metaKeys: seq<string>) returns (changed: seq<string>)
      requires WellFormed(meta) && metaKeys == Keys(Tested(meta))
      ensures changed == ChangedMultipliers(Tested(meta))
    {
      ghost var rest := Tested(meta);
      changed := [];
      for n := 0 to |metaKeys|
        invariant changed == ChangedMultipliers(rest[..n])
      {
        var mkey := metaKeys[n];
        TestedEntry(meta, n);
        var value := Get(meta, mkey).value;
        assert rest[n] == (mkey, value);
        ChangedMultipliersPrefix(rest, n, mkey, value);
        if Find(mkey, "Multiplier") > 0 && DiffersFromOne(value) {
          changed := changed + [mkey];
        }
      }
      assert rest[..|metaKeys|] == rest;
    }
  }
}
