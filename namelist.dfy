/** Where _generate_metadata (sami2py/_core_class.py:289-369) reads each
    value of the dict: which line of the namelist and which token, the fixed
    entries, the drift-model branch, and when every read succeeds. */
module Namelist {
  import opened Wrappers
  import opened Text
  import opened Slices
  import opened Tokens
  import opened MetaData
  import opened Layout

  const Ions: seq<string> := ["H+", "O+", "NO+", "O2+", "He+", "N2+", "N+"]

  /** The fixed names of the neutral atmosphere and EUV models. */
  const NeutralAtmosphereModel := "NRLMSISe-2000"
  const EuvModel := "EUVAC"

  /** `', '.join(ions[nion1:nion2])`. */
  function IonsUsed(nion1: int, nion2: int): string {
    Join(", ", Slice(Ions, nion1, nion2))
  }

  /** `'HWM-{:02d}'.format(code)`. */
  function WindModelName(code: nat): string {
    "HWM-" + ZeroPad2(code)
  }

  /** Joining a slice of the species is empty exactly when the slice is, the
      bounds read as Python reads them (a negative bound counts from the end). */
  lemma IonsUsedEmpty(nion1: int, nion2: int)
    ensures IonsUsed(nion1, nion2) == "" <==> SliceBound(nion2, |Ions|) <= SliceBound(nion1, |Ions|)
  {
    var parts := Slice(Ions, nion1, nion2);
    if parts != [] {
      var a := SliceBound(nion1, |Ions|);
      assert parts[0] == Ions[a];
    }
  }

  /** The namelist's usual ranges: species 1 to 7 names the first six (the
      end bound is nion2 - 1 and excluded), a start token of 0 counts from the
      end and names N+ alone, and a start at the end names none. */
  lemma IonsUsedExamples()
    ensures IonsUsed(0, 6) == Join(", ", ["H+", "O+", "NO+", "O2+", "He+", "N2+"])
    ensures IonsUsed(0, 7) == Join(", ", Ions)
    ensures IonsUsed(-1, 7) == "N+"
    ensures IonsUsed(7, 7) == ""
  {
    SliceNonNegative(Ions, 0, 6);
    SliceNonNegative(Ions, 0, 7);
    SliceNegativeStart(Ions, -1, 7);
    SliceNonNegative(Ions, 6, 7);
    assert Ions[6..7] == ["N+"];
    assert Ions[0..7] == Ions;
    assert Ions[0..6] == ["H+", "O+", "NO+", "O2+", "He+", "N2+"];
  }

  /** The wind model name holds one integer token, the code: find_int reads
      the code back from it. */
  lemma WindModelRoundTrip(code: nat)
    ensures FindInt(WindModelName(code), 0) == Some(code)
    ensures FindInt(WindModelName(code), 1) == None
  {
    var s, d := WindModelName(code), ZeroPad2(code);
    assert s[4..] == d;
    var spans := [Span(4, |s|)];
    forall k | 4 <= k < |s| ensures IsDigit(s[k]) {
      assert s[k] == d[k - 4];
    }
    assert IsDigitRun(s, spans[0]);
    assert s[..4] == "HWM-";
    forall p | 0 <= p < 4 ensures !IsDigit(s[p]) {
      assert s[p] == "HWM-"[p];
    }
    assert AreDigitRunsFrom(s, 0, spans);
    DigitRunsCharacterized(s, spans);
    assert Cut(s, spans)[0] == s[4..|s|] == d;
    assert IntTokens(s) == [d];
  }

  /** `find_float(namelist[line], ind)` succeeds. */
  predicate HasFloat(nl: seq<string>, line: nat, ind: nat) {
    FloatAt(nl, line, ind).Some?
  }

  /** `find_int(namelist[line], ind)` succeeds. */
  predicate HasInt(nl: seq<string>, line: nat, ind: nat) {
    IntAt(nl, line, ind).Some?
  }

  /** `find_float(namelist[line], ind)`, None where Python raises IndexError:
      the line must exist and have more than ind float tokens. */
  function FloatAt(nl: seq<string>, line: nat, ind: nat): (r: Option<string>)
    ensures r.Some? <==> line < |nl| && ind < |FloatTokens(nl[line])|
    ensures r.Some? ==> IsFloatToken(r.value) && r.value == FloatTokens(nl[line])[ind]
  {
    if line < |nl| then
      FloatTokensShape(nl[line]);
      FindFloat(nl[line], ind)
    else None
  }

  /** `find_int(namelist[line], ind)`, None where Python raises IndexError:
      the line must exist and have more than ind integer tokens. */
  function IntAt(nl: seq<string>, line: nat, ind: nat): (r: Option<nat>)
    ensures r.Some? <==> line < |nl| && ind < |IntTokens(nl[line])|
    ensures r.Some? ==> r.value == DigitsValue(IntTokens(nl[line])[ind])
  {
    if line < |nl| then FindInt(nl[line], ind) else None
  }

  // Each readability condition binds its conjunction to one name, so that
  // a function that requires it checks it as one fact.

  /** The reads of the header section succeed: line 14 has a float token,
      line 15 three, line 16 an integer token, and lines 20 and 21 two. */
  predicate HeaderReadable(nl: seq<string>)
  {
    var ok :=
      && |nl| > 1
      && HasFloat(nl, 14, 0) && HasFloat(nl, 15, 2) && HasInt(nl, 16, 0)
      && HasInt(nl, 20, 1) && HasInt(nl, 21, 1);
    ok
  }

  /** The reads of the multiplier section succeed: line 28 has seven float
      tokens, and the five single multipliers can be read. */
  predicate MultipliersReadable(nl: seq<string>)
  {
    var ok := HasFloat(nl, 28, 6) && OtherMultipliersReadable(nl);
    ok
  }

  /** The reads of the exospheric temperature, neutral temperature, EUV, drift
      and wind multipliers succeed: lines 33, 29 and 34 have a float token and
      lines 24 and 23 two. */
  predicate OtherMultipliersReadable(nl: seq<string>)
  {
    var ok :=
      && HasFloat(nl, 33, 0) && HasFloat(nl, 29, 0) && HasFloat(nl, 34, 0)
      && HasFloat(nl, 24, 1) && HasFloat(nl, 23, 1);
    ok
  }

  /** The reads of the wind, geometry and run-time section succeed; line 35,
      the last line read, then exists. */
  predicate RunReadable(nl: seq<string>)
    ensures RunReadable(nl) ==> |nl| > 35
  {
    var ok := GeometryReadable(nl) && RuntimeReadable(nl);
    ok
  }

  /** The reads of the wind model and the grid geometry succeed: lines 35,
      26 and 27 have an integer token and lines 11, 12 and 13 a float token. */
  predicate GeometryReadable(nl: seq<string>)
  {
    var ok :=
      && HasInt(nl, 35, 0)
      && HasFloat(nl, 11, 0) && HasFloat(nl, 12, 0) && HasInt(nl, 26, 0)
      && HasInt(nl, 27, 0) && HasFloat(nl, 13, 0);
    ok
  }

  /** The reads of the run-time settings succeed: line 2 has an integer
      token and lines 5, 22, 6, 3, 4 and 30 a float token. */
  predicate RuntimeReadable(nl: seq<string>)
  {
    var ok :=
      && HasFloat(nl, 5, 0) && HasFloat(nl, 22, 0) && HasFloat(nl, 6, 0)
      && HasFloat(nl, 3, 0) && HasFloat(nl, 4, 0) && HasInt(nl, 2, 0)
      && HasFloat(nl, 30, 0);
    ok
  }

  /** Every read of _generate_metadata succeeds: each line it reads exists and
      has the token it takes (line 35 is the last line read). */
  predicate Readable(nl: seq<string>)
    ensures Readable(nl) ==> |nl| > 35
  {
    var ok := HeaderReadable(nl) && MultipliersReadable(nl) && RunReadable(nl);
    ok
  }

  // ---------------------------------------------------------------------------
  // When the reads of a section raise no IndexError

  /** The header reads succeed exactly when each line they read exists
      and has more tokens than the index taken from it. */
  lemma HeaderReadableExactly(nl: seq<string>)
    ensures HeaderReadable(nl) <==>
      && |nl| > 21
      && |FloatTokens(nl[14])| > 0 && |FloatTokens(nl[15])| > 2 && |IntTokens(nl[16])| > 0
      && |IntTokens(nl[20])| > 1 && |IntTokens(nl[21])| > 1
  {
  }

  /** The multiplier reads succeed exactly when each line they read exists
      and has more tokens than the index taken from it. */
  lemma MultipliersReadableExactly(nl: seq<string>)
    ensures MultipliersReadable(nl) <==>
      && |nl| > 34 && |FloatTokens(nl[28])| > 6
      && |FloatTokens(nl[33])| > 0 && |FloatTokens(nl[29])| > 0 && |FloatTokens(nl[34])| > 0
      && |FloatTokens(nl[24])| > 1 && |FloatTokens(nl[23])| > 1
  {
    OtherMultipliersReadableExactly(nl);
  }

  /** The single-multiplier reads succeed exactly when each line they read exists
      and has more tokens than the index taken from it. */
  lemma OtherMultipliersReadableExactly(nl: seq<string>)
    ensures OtherMultipliersReadable(nl) <==>
      && |nl| > 34
      && |FloatTokens(nl[33])| > 0 && |FloatTokens(nl[29])| > 0 && |FloatTokens(nl[34])| > 0
      && |FloatTokens(nl[24])| > 1 && |FloatTokens(nl[23])| > 1
  {
  }

  /** The wind and geometry reads succeed exactly when each line they read exists
      and has more tokens than the index taken from it. */
  lemma GeometryReadableExactly(nl: seq<string>)
    ensures GeometryReadable(nl) <==>
      && |nl| > 35
      && |IntTokens(nl[35])| > 0 && |IntTokens(nl[26])| > 0 && |IntTokens(nl[27])| > 0
      && |FloatTokens(nl[11])| > 0 && |FloatTokens(nl[12])| > 0 && |FloatTokens(nl[13])| > 0
  {
  }

  /** The run-time reads succeed exactly when each line they read exists
      and has more tokens than the index taken from it. */
  lemma RuntimeReadableExactly(nl: seq<string>)
    ensures RuntimeReadable(nl) <==>
      && |nl| > 30 && |IntTokens(nl[2])| > 0
      && |FloatTokens(nl[5])| > 0 && |FloatTokens(nl[22])| > 0 && |FloatTokens(nl[6])| > 0
      && |FloatTokens(nl[3])| > 0 && |FloatTokens(nl[4])| > 0 && |FloatTokens(nl[30])| > 0
  {
  }

  /** `float(find_float(namelist[line], ind))` as stored: the value of the
      ind-th float token of the line. */
  function F(nl: seq<string>, line: nat, ind: nat): (r: Scalar)
    requires HasFloat(nl, line, ind)
    ensures r.Float?
    ensures r == Float(DecimalValue(FloatTokens(nl[line])[ind]))
  {
    Float(DecimalValue(FloatAt(nl, line, ind).value))
  }

  /** `find_int(namelist[line], ind)` as a number: the value of the ind-th
      integer token of the line. */
  function I(nl: seq<string>, line: nat, ind: nat): (r: nat)
    requires HasInt(nl, line, ind)
    ensures r == DigitsValue(IntTokens(nl[line])[ind])
  {
    IntAt(nl, line, ind).value
  }

  /** `find_int(namelist[line], ind)` as stored. */
  function N(nl: seq<string>, line: nat, ind: nat): (r: Scalar)
    requires HasInt(nl, line, ind)
    ensures r == Int(DigitsValue(IntTokens(nl[line])[ind]))
  {
    Int(I(nl, line, ind))
  }

  /** The run uses the empirical Fejer-Scherliess drifts: '.true.' occurs in
      line 10. */
  predicate FejerScherliess(nl: seq<string>)
    requires |nl| > 10
    ensures FejerScherliess(nl) <==> exists p :: OccursAt(nl[10], ".true.", p)
  {
    Contains(nl[10], ".true.")
  }

  /** Output format, solar and geomagnetic inputs, the fixed model names and
      the ions in use. */
  function HeaderValues(nl: seq<string>): (r: seq<Scalar>)
    requires HeaderReadable(nl)
    ensures |r| == |HeaderKeys|
  {
    var fmtout: Scalar := Flag(Contains(nl[1], ".true."));
    var msis: Scalar := Str(NeutralAtmosphereModel);
    var euv: Scalar := Str(EuvModel);
    var ions: Scalar := Str(IonsUsed(I(nl, 20, 1) - 1, I(nl, 21, 1) - 1));
    [fmtout, F(nl, 14, 0), F(nl, 15, 2), N(nl, 16, 0), msis, euv, ions]
  }

  /** The seven neutral-density multipliers H, O, NO, O2, He, N2, N: the first
      seven float tokens of line 28. */
  function NeutralValues(nl: seq<string>): (r: seq<Scalar>)
    requires HasFloat(nl, 28, 6)
    ensures |r| == 7
  {
    seq(7, i requires 0 <= i < 7 => F(nl, 28, i))
  }

  /** The neutral multipliers, then the exospheric temperature, neutral
      temperature, EUV, drift and wind multipliers. */
  function MultiplierValues(nl: seq<string>): (r: seq<Scalar>)
    requires MultipliersReadable(nl)
    ensures |r| == |MultiplierKeys|
  {
    NeutralValues(nl) + OtherMultiplierValues(nl)
  }

  /** The exospheric temperature, neutral temperature, EUV, drift and wind
      multipliers. */
  function OtherMultiplierValues(nl: seq<string>): (r: seq<Scalar>)
    requires OtherMultipliersReadable(nl)
    ensures |r| == 5
  {
    [F(nl, 33, 0), F(nl, 29, 0), F(nl, 34, 0), F(nl, 24, 1), F(nl, 23, 1)]
  }

  /** The wind model, the grid geometry and the run-time settings. */
  function RunValues(nl: seq<string>): (r: seq<Scalar>)
    requires RunReadable(nl)
    ensures |r| == |RunKeys|
  {
    GeometryValues(nl) + RuntimeValues(nl)
  }

  /** The wind model name and the grid geometry. */
  function GeometryValues(nl: seq<string>): (r: seq<Scalar>)
    requires GeometryReadable(nl)
    ensures |r| == 6
  {
    var wind: Scalar := Str(WindModelName(I(nl, 35, 0)));
    [wind, F(nl, 11, 0), F(nl, 12, 0), N(nl, 26, 0), N(nl, 27, 0), F(nl, 13, 0)]
  }

  /** The run-time settings. */
  function RuntimeValues(nl: seq<string>): (r: seq<Scalar>)
    requires RuntimeReadable(nl)
    ensures |r| == 7
  {
    [F(nl, 5, 0), F(nl, 22, 0), F(nl, 6, 0), F(nl, 3, 0), F(nl, 4, 0),
     N(nl, 2, 0), F(nl, 30, 0)]
  }

  // ---------------------------------------------------------------------------
  // Which line and token each value of a section is read from

  /** The header values, in the order of the keys fmtout, F10.7A, F10.7, ap,
      the two model names and Ions Used: the '.true.' test of line 1, the
      first float of line 14, the third float of line 15, the first integer
      of line 16, the two fixed names, and the ions named from the second
      integers of lines 20 and 21. */
  lemma HeaderReads(nl: seq<string>)
    requires HeaderReadable(nl)
    ensures HeaderValues(nl) ==
      [Flag(Contains(nl[1], ".true.")), F(nl, 14, 0), F(nl, 15, 2), N(nl, 16, 0),
       Str(NeutralAtmosphereModel), Str(EuvModel), Str(IonsUsed(I(nl, 20, 1) - 1, I(nl, 21, 1) - 1))]
  {
  }

  /** The neutral multipliers H, O, NO, O2, He, N2 and N are the first seven
      float tokens of line 28, in that order. */
  lemma NeutralReads(nl: seq<string>)
    requires HasFloat(nl, 28, 6)
    ensures forall i :: 0 <= i < 7 ==> NeutralValues(nl)[i] == F(nl, 28, i)
  {
  }

  /** The multipliers of T_exo, T_n, EUV, ExB drift and wind, in that order:
      the first floats of lines 33, 29 and 34 and the second floats of lines
      24 and 23. */
  lemma OtherMultiplierReads(nl: seq<string>)
    requires OtherMultipliersReadable(nl)
    ensures OtherMultiplierValues(nl) == [F(nl, 33, 0), F(nl, 29, 0), F(nl, 34, 0), F(nl, 24, 1), F(nl, 23, 1)]
  {
  }

  /** The wind model, rmin, rmax, gams, gamp and altmin, in that order: the
      name built from the first integer of line 35, the first floats of lines
      11 and 12, the first integers of lines 26 and 27, and the first float of
      line 13. */
  lemma GeometryReads(nl: seq<string>)
    requires GeometryReadable(nl)
    ensures GeometryValues(nl) ==
      [Str(WindModelName(I(nl, 35, 0))), F(nl, 11, 0), F(nl, 12, 0), N(nl, 26, 0), N(nl, 27, 0), F(nl, 13, 0)]
  {
  }

  /** The run-time settings dthr, hrinit, hrpr, hrmax, dt0, maxstep and
      denmin, in that order: the first floats of lines 5, 22, 6, 3 and 4, the
      first integer of line 2 and the first float of line 30. */
  lemma RuntimeReads(nl: seq<string>)
    requires RuntimeReadable(nl)
    ensures RuntimeValues(nl) == [F(nl, 5, 0), F(nl, 22, 0), F(nl, 6, 0), F(nl, 3, 0), F(nl, 4, 0), N(nl, 2, 0), F(nl, 30, 0)]
  {
  }

  /** The dict _generate_metadata fills, entry by entry in its order. */
  function NamelistEntries(nl: seq<string>, exbCoeffs: seq<real>): seq<Entry>
    requires Readable(nl)
  {
    Entries(HeaderValues(nl), MultiplierValues(nl), FejerScherliess(nl), exbCoeffs, RunValues(nl))
  }

  /** The dict is its sections one after the other, each section's own keys
      paired with the values that section reads. */
  lemma NamelistSections(nl: seq<string>, exbCoeffs: seq<real>)
    requires Readable(nl)
    ensures NamelistEntries(nl, exbCoeffs) ==
      Zip(HeaderKeys, HeaderValues(nl)) + Zip(NeutralKeys, NeutralValues(nl))
      + Zip(OtherMultiplierKeys, OtherMultiplierValues(nl)) + DriftSection(FejerScherliess(nl), exbCoeffs)
      + Zip(GeometryKeys, GeometryValues(nl)) + Zip(RuntimeKeys, RuntimeValues(nl))
  {
    var h := Zip(HeaderKeys, HeaderValues(nl));
    var n, o := Zip(NeutralKeys, NeutralValues(nl)), Zip(OtherMultiplierKeys, OtherMultiplierValues(nl));
    var dr := DriftSection(FejerScherliess(nl), exbCoeffs);
    var g, r := Zip(GeometryKeys, GeometryValues(nl)), Zip(RuntimeKeys, RuntimeValues(nl));
    ZipAppend(NeutralKeys, NeutralValues(nl), OtherMultiplierKeys, OtherMultiplierValues(nl));
    ZipAppend(GeometryKeys, GeometryValues(nl), RuntimeKeys, RuntimeValues(nl));
    assert NamelistEntries(nl, exbCoeffs) == h + (n + o) + dr + (g + r);
    AppendAssoc(h, n, o);
    AppendAssoc(h + n + o + dr, g, r);
  }

  /** The generated dict has distinct keys in the order `_generate_metadata`
      assigns them, with the Fourier key exactly when line 10 does not select Fejer-Scherliess. */
  lemma NamelistEntriesWellFormed(nl: seq<string>, exbCoeffs: seq<real>)
    requires Readable(nl)
    ensures WellFormed(NamelistEntries(nl, exbCoeffs))
    ensures Keys(NamelistEntries(nl, exbCoeffs)) ==
      HeaderKeys + MultiplierKeys + DriftKeys(FejerScherliess(nl)) + RunKeys
  {
    EntriesWellFormed(HeaderValues(nl), MultiplierValues(nl), FejerScherliess(nl), exbCoeffs, RunValues(nl));
  }

  // ---------------------------------------------------------------------------
  // What the generated dict says about the namelist

  /** 'fmtout' holds whether line 1 contains '.true.': the run's output is
      formatted text exactly then, and unformatted records otherwise. */
  lemma FormatLookup(nl: seq<string>, exbCoeffs: seq<real>)
    requires Readable(nl)
    ensures Get(NamelistEntries(nl, exbCoeffs), "fmtout") == Some(Flag(Contains(nl[1], ".true.")))
  {
    HeaderLookups(HeaderValues(nl), MultiplierValues(nl), FejerScherliess(nl), exbCoeffs, RunValues(nl));
    assert HeaderKeys[0] == "fmtout";
  }

  /** The ions in use are named from the second integers of lines 20 and 21,
      both less one, as the bounds of a slice of the seven ion species. */
  lemma IonsLookup(nl: seq<string>, exbCoeffs: seq<real>)
    requires Readable(nl)
    ensures Get(NamelistEntries(nl, exbCoeffs), "Ions Used") ==
      Some(Str(IonsUsed(I(nl, 20, 1) - 1, I(nl, 21, 1) - 1)))
  {
    HeaderLookups(HeaderValues(nl), MultiplierValues(nl), FejerScherliess(nl), exbCoeffs, RunValues(nl));
    assert HeaderKeys[6] == "Ions Used";
  }

  /** The seven neutral multipliers are the first seven float tokens of line
      28, in the order H, O, NO, O2, He, N2, N. */
  lemma NeutralLookups(nl: seq<string>, exbCoeffs: seq<real>)
    requires Readable(nl)
    ensures forall i :: 0 <= i < 7 ==> Get(NamelistEntries(nl, exbCoeffs), MultiplierKeys[i]) == Some(F(nl, 28, i))
  {
    var mv, n := MultiplierValues(nl), NeutralValues(nl);
    MultiplierLookups(HeaderValues(nl), mv, FejerScherliess(nl), exbCoeffs, RunValues(nl));
    NeutralReads(nl);
    assert mv == n + OtherMultiplierValues(nl);
    assert forall i :: 0 <= i < 7 ==> mv[i] == n[i];
  }

  /** Line 10 selects the drift model: with '.true.' the Fejer-Scherliess
      model and no coefficients; otherwise the Fourier series, whose
      coefficients are stored under the Fourier key. */
  lemma NamelistDriftLookups(nl: seq<string>, exbCoeffs: seq<real>)
    requires Readable(nl)
    ensures var e := NamelistEntries(nl, exbCoeffs);
      && Get(e, "ExB model") == Some(Str(if FejerScherliess(nl) then "Fejer-Scherliess" else "Fourier Series"))
      && (FourierKey in Keys(e) <==> !FejerScherliess(nl))
      && (!FejerScherliess(nl) ==> Get(e, FourierKey) == Some(Coeffs(exbCoeffs)))
  {
    DriftLookups(HeaderValues(nl), MultiplierValues(nl), FejerScherliess(nl), exbCoeffs, RunValues(nl));
  }

  /** The wind model is named from the first integer of line 35. */
  lemma WindModelLookup(nl: seq<string>, exbCoeffs: seq<real>)
    requires Readable(nl)
    ensures Get(NamelistEntries(nl, exbCoeffs), "Wind Model") ==
      Some(Str(WindModelName(I(nl, 35, 0))))
  {
    WindModelEntry(HeaderValues(nl), MultiplierValues(nl), FejerScherliess(nl), exbCoeffs, RunValues(nl));
    assert RunValues(nl)[0] == GeometryValues(nl)[0];
  }

  /** The solar and geomagnetic inputs: 'F10.7A' is the first float of line
      14, 'F10.7' the third float of line 15, and 'ap' the first integer of
      line 16. */
  lemma SolarLookups(nl: seq<string>, exbCoeffs: seq<real>)
    requires Readable(nl)
    ensures var e := NamelistEntries(nl, exbCoeffs);
      && Get(e, "F10.7A") == Some(F(nl, 14, 0))
      && Get(e, "F10.7") == Some(F(nl, 15, 2))
      && Get(e, "ap") == Some(N(nl, 16, 0))
  {
    HeaderKeyLookups(HeaderValues(nl), MultiplierValues(nl), FejerScherliess(nl), exbCoeffs, RunValues(nl));
    HeaderReads(nl);
  }

  /** The neutral atmosphere and EUV models are the fixed names
      'NRLMSISe-2000' and 'EUVAC', whatever the namelist says. */
  lemma ModelNameLookups(nl: seq<string>, exbCoeffs: seq<real>)
    requires Readable(nl)
    ensures var e := NamelistEntries(nl, exbCoeffs);
      && Get(e, "Neutral Atmosphere Model") == Some(Str("NRLMSISe-2000"))
      && Get(e, "EUV Model") == Some(Str("EUVAC"))
  {
    HeaderKeyLookups(HeaderValues(nl), MultiplierValues(nl), FejerScherliess(nl), exbCoeffs, RunValues(nl));
    HeaderReads(nl);
  }

  /** The other multipliers: 'T_exo Multiplier', 'T_n Multiplier' and 'EUV
      Multiplier' are the first floats of lines 33, 29 and 34, and 'ExB Drift
      Multiplier' and 'Wind Multiplier' the second floats of lines 24 and 23. */
  lemma OtherMultiplierLookups(nl: seq<string>, exbCoeffs: seq<real>)
    requires Readable(nl)
    ensures var e := NamelistEntries(nl, exbCoeffs);
      && Get(e, "T_exo Multiplier") == Some(F(nl, 33, 0))
      && Get(e, "T_n Multiplier") == Some(F(nl, 29, 0))
      && Get(e, "EUV Multiplier") == Some(F(nl, 34, 0))
      && Get(e, "ExB Drift Multiplier") == Some(F(nl, 24, 1))
      && Get(e, "Wind Multiplier") == Some(F(nl, 23, 1))
  {
    OtherMultiplierKeyLookups(HeaderValues(nl), MultiplierValues(nl), FejerScherliess(nl), exbCoeffs, RunValues(nl));
    OtherMultiplierReads(nl);
    var mv, o := MultiplierValues(nl), OtherMultiplierValues(nl);
    assert mv[7] == o[0] && mv[8] == o[1] && mv[9] == o[2] && mv[10] == o[3] && mv[11] == o[4];
  }

  /** The grid geometry: 'rmin', 'rmax' and 'altmin' are the first floats of
      lines 11, 12 and 13, and 'gams' and 'gamp' the first integers of lines
      26 and 27. */
  lemma GeometryLookups(nl: seq<string>, exbCoeffs: seq<real>)
    requires Readable(nl)
    ensures var e := NamelistEntries(nl, exbCoeffs);
      && Get(e, "rmin") == Some(F(nl, 11, 0))
      && Get(e, "rmax") == Some(F(nl, 12, 0))
      && Get(e, "gams") == Some(N(nl, 26, 0))
      && Get(e, "gamp") == Some(N(nl, 27, 0))
      && Get(e, "altmin") == Some(F(nl, 13, 0))
  {
    GeometryKeyLookups(HeaderValues(nl), MultiplierValues(nl), FejerScherliess(nl), exbCoeffs, RunValues(nl));
    GeometryReads(nl);
    var rv, g := RunValues(nl), GeometryValues(nl);
    assert rv[1] == g[1] && rv[2] == g[2] && rv[3] == g[3] && rv[4] == g[4] && rv[5] == g[5];
  }

  /** The run-time settings: 'dthr', 'hrinit', 'hrpr', 'hrmax', 'dt0' and
      'denmin' are the first floats of lines 5, 22, 6, 3, 4 and 30, and
      'maxstep' the first integer of line 2. */
  lemma RuntimeLookups(nl: seq<string>, exbCoeffs: seq<real>)
    requires Readable(nl)
    ensures var e := NamelistEntries(nl, exbCoeffs);
      && Get(e, "dthr") == Some(F(nl, 5, 0))
      && Get(e, "hrinit") == Some(F(nl, 22, 0))
      && Get(e, "hrpr") == Some(F(nl, 6, 0))
      && Get(e, "hrmax") == Some(F(nl, 3, 0))
      && Get(e, "dt0") == Some(F(nl, 4, 0))
      && Get(e, "maxstep") == Some(N(nl, 2, 0))
      && Get(e, "denmin") == Some(F(nl, 30, 0))
  {
    RuntimeKeyLookups(HeaderValues(nl), MultiplierValues(nl), FejerScherliess(nl), exbCoeffs, RunValues(nl));
    RuntimeReads(nl);
    var rv, t := RunValues(nl), RuntimeValues(nl);
    assert rv[6] == t[0] && rv[7] == t[1] && rv[8] == t[2] && rv[9] == t[3];
    assert rv[10] == t[4] && rv[11] == t[5] && rv[12] == t[6];
  }

  // ---------------------------------------------------------------------------
  // check_standard_model on a freshly generated dict

  /** check_standard_model on the dict built from a namelist: the Fourier key
      exactly when line 10 does not select Fejer-Scherliess, then the keys of
      the twelve multipliers whose value is not 1.0; nothing at all exactly
      when the drift model is Fejer-Scherliess and every multiplier is 1.0. */
  lemma StandardModelOfNamelist(nl: seq<string>, exbCoeffs: seq<real>)
    requires Readable(nl)
    ensures WellFormed(NamelistEntries(nl, exbCoeffs))
    ensures ModifiedKeys(NamelistEntries(nl, exbCoeffs)) ==
      (if FejerScherliess(nl) then [] else [FourierKey]) + ChangedMultipliers(Zip(MultiplierKeys, MultiplierValues(nl)))
    ensures forall i :: 0 <= i < |MultiplierKeys| ==>
      (MultiplierKeys[i] in ChangedMultipliers(Zip(MultiplierKeys, MultiplierValues(nl))) <==> MultiplierValues(nl)[i] != Float(1.0))
    ensures ChangedMultipliers(Zip(MultiplierKeys, MultiplierValues(nl))) == [] <==>
      forall i :: 0 <= i < |MultiplierKeys| ==> MultiplierValues(nl)[i] == Float(1.0)
    ensures ModifiedKeys(NamelistEntries(nl, exbCoeffs)) == [] <==>
      FejerScherliess(nl) && forall i :: 0 <= i < |MultiplierKeys| ==> MultiplierValues(nl)[i] == Float(1.0)
  {
    MultiplierValuesAreFloats(nl);
    StandardModelOfEntries(HeaderValues(nl), MultiplierValues(nl), FejerScherliess(nl), exbCoeffs, RunValues(nl));
  }

  lemma MultiplierValuesAreFloats(nl: seq<string>)
    requires MultipliersReadable(nl)
    ensures forall i :: 0 <= i < |MultiplierKeys| ==> MultiplierValues(nl)[i].Float?
  {
    NeutralAreFloats(nl);
    OtherMultipliersAreFloats(nl);
    AllFloatsConcat(NeutralValues(nl), OtherMultiplierValues(nl));
  }

  lemma NeutralAreFloats(nl: seq<string>)
    requires HasFloat(nl, 28, 6)
    ensures AllFloats(NeutralValues(nl))
  {
    NeutralReads(nl);
  }

  lemma OtherMultipliersAreFloats(nl: seq<string>)
    requires OtherMultipliersReadable(nl)
    ensures AllFloats(OtherMultiplierValues(nl))
  {
    OtherMultiplierReads(nl);
    AllFloatsFive(F(nl, 33, 0), F(nl, 29, 0), F(nl, 34, 0), F(nl, 24, 1), F(nl, 23, 1));
  }

  /** A namelist of at least 36 lines, each with at least seven float and
      seven integer tokens. */
  predicate Full(nl: seq<string>) {
    && |nl| >= 36
    && forall l :: 0 <= l < |nl| ==> |FloatTokens(nl[l])| >= 7 && |IntTokens(nl[l])| >= 7
  }

  /** On a full namelist every read of a line before 36 and a token before 7
      succeeds. */
  lemma FullReads(nl: seq<string>, line: nat, ind: nat)
    requires Full(nl) && line < 36 && ind < 7
    ensures HasFloat(nl, line, ind) && HasInt(nl, line, ind)
  {
  }

  /** Every read of _generate_metadata succeeds on a full namelist. */
  lemma ReadableWhenFull(nl: seq<string>)
    requires Full(nl)
    ensures Readable(nl)
  {
    FullReads(nl, 14, 0); FullReads(nl, 15, 2); FullReads(nl, 16, 0); FullReads(nl, 20, 1); FullReads(nl, 21, 1);
    assert HeaderReadable(nl);
    FullReads(nl, 28, 6); FullReads(nl, 33, 0); FullReads(nl, 29, 0); FullReads(nl, 34, 0); FullReads(nl, 24, 1); FullReads(nl, 23, 1);
    assert MultipliersReadable(nl);
    FullReads(nl, 35, 0); FullReads(nl, 11, 0); FullReads(nl, 12, 0); FullReads(nl, 26, 0); FullReads(nl, 27, 0); FullReads(nl, 13, 0);
    assert GeometryReadable(nl);
    FullReads(nl, 5, 0); FullReads(nl, 22, 0); FullReads(nl, 6, 0); FullReads(nl, 3, 0); FullReads(nl, 4, 0); FullReads(nl, 2, 0);
    FullReads(nl, 30, 0);
    assert RuntimeReadable(nl);
  }

  /** Every float token of the namelist reads "1". */
  predicate AllOnes(nl: seq<string>) {
    forall l :: 0 <= l < |nl| ==> forall i :: 0 <= i < |FloatTokens(nl[l])| ==> FloatTokens(nl[l])[i] == "1"
  }

  /** On a full namelist whose float tokens all read "1", every multiplier is 1. */
  lemma UnitMultipliers(nl: seq<string>)
    requires Full(nl) && AllOnes(nl)
    ensures MultipliersReadable(nl)
    ensures forall i :: 0 <= i < |MultiplierKeys| ==> MultiplierValues(nl)[i] == Float(1.0)
  {
    NeutralUnits(nl);
    OtherUnits(nl);
    var n, o := NeutralValues(nl), OtherMultiplierValues(nl);
    var one := Float(1.0);
    assert AllEqual(n, one);
    AllEqualFive(one);
    assert o == [one, one, one, one, one];
    AllEqualConcat(n, o, one);
    assert MultiplierValues(nl) == n + o;
  }

  lemma NeutralUnits(nl: seq<string>)
    requires Full(nl) && AllOnes(nl)
    ensures HasFloat(nl, 28, 6)
    ensures forall i :: 0 <= i < 7 ==> NeutralValues(nl)[i] == Float(1.0)
  {
    FullReads(nl, 28, 6);
    forall i | 0 <= i < 7 ensures NeutralValues(nl)[i] == Float(1.0) {
      UnitFloat(nl, 28, i);
    }
  }

  lemma OtherUnits(nl: seq<string>)
    requires Full(nl) && AllOnes(nl)
    ensures OtherMultipliersReadable(nl)
    ensures OtherMultiplierValues(nl) == [Float(1.0), Float(1.0), Float(1.0), Float(1.0), Float(1.0)]
  {
    UnitFloat(nl, 33, 0); UnitFloat(nl, 29, 0); UnitFloat(nl, 34, 0); UnitFloat(nl, 24, 1); UnitFloat(nl, 23, 1);
  }

  /** On a full namelist whose float tokens all read "1", each float read
      gives 1. */
  lemma UnitFloat(nl: seq<string>, line: nat, ind: nat)
    requires Full(nl) && AllOnes(nl) && line < 36 && ind < 7
    ensures HasFloat(nl, line, ind) && F(nl, line, ind) == Float(1.0)
  {
    FullReads(nl, line, ind);
    assert FloatAt(nl, line, ind).value == "1";
    assert DigitsValue("1") == 1;
  }

  /** A full namelist whose float tokens all read "1" and whose line 10 does
      not select the Fejer-Scherliess drifts passes every read, and the check
      on its dict reports exactly ['Fourier Coeffs']. */
  lemma FourierOnly(nl: seq<string>, exbCoeffs: seq<real>)
    requires Full(nl) && AllOnes(nl) && !FejerScherliess(nl)
    ensures Readable(nl)
    ensures WellFormed(NamelistEntries(nl, exbCoeffs))
    ensures ModifiedKeys(NamelistEntries(nl, exbCoeffs)) == [FourierKey]
  {
    ReadableWhenFull(nl);
    UnitMultipliers(nl);
    StandardModelOfNamelist(nl, exbCoeffs);
  }
}
