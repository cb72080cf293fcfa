/** A concrete namelist on which every read of _generate_metadata succeeds
    (sami2py/_core_class.py:289-369), and what check_standard_model reports
    for it. */
module Sample {
  import opened Wrappers
  import opened Text
  import opened Tokens
  import opened MetaData
  import opened Layout
  import opened Namelist

  /** "1 1 1 1 1 1 1": seven one-digit numbers. */
  const SampleLine: string := seq(13, i requires 0 <= i < 13 => if i % 2 == 0 then '1' else ' ')

  /** From an even position the float scanner finds the one-digit runs
      k, k + 2, and so on. */
  lemma {:induction false} SampleRunsFrom(k: nat)
    requires k <= 13 && k % 2 == 0
    ensures |FloatRunsFrom(SampleLine, k)| == (14 - k) / 2
    ensures forall j :: 0 <= j < (14 - k) / 2 ==> FloatRunsFrom(SampleLine, k)[j] == Span(k + 2 * j, k + 2 * j + 1)
    decreases 13 - k
  {
    var s := SampleLine;
    if k < 13 {
      assert s[k] == '1';
      if k + 1 < 13 {
        assert s[k + 1] == ' ';
        assert RunEnd(s, k + 1) == k + 1;
        SampleRunsFrom(k + 2);
      }
      assert RunEnd(s, k) == k + 1;
      assert FloatMatchEnd(s, k) == k + 1;
    }
  }

  /** The example line has seven float tokens, each "1". */
  lemma SampleFloatTokens()
    ensures |FloatTokens(SampleLine)| == 7
    ensures forall j :: 0 <= j < 7 ==> FloatTokens(SampleLine)[j] == "1"
  {
    var runs := FloatRuns(SampleLine);
    SampleRunsFrom(0);
    forall j | 0 <= j < 7
      ensures FloatTokens(SampleLine)[j] == "1"
    {
      assert runs[j] == Span(2 * j, 2 * j + 1);
      assert SampleLine[2 * j..2 * j + 1] == [SampleLine[2 * j]];
    }
  }

  /** The example line has seven integer tokens too, since it has no '.'. */
  lemma SampleIntTokens()
    ensures |IntTokens(SampleLine)| == 7
  {
    SampleFloatTokens();
    NoDotSameTokens(SampleLine);
  }

  /** The example line does not contain ".true.". */
  lemma SampleLineNotTrue()
    ensures !Contains(SampleLine, ".true.")
  {
    forall p | 0 <= p && p + 6 <= 13
      ensures !OccursAt(SampleLine, ".true.", p)
    {
      assert SampleLine[p..p + 6][0] != ".true."[0];
    }
  }

  /** A namelist whose every line reads "1 1 1 1 1 1 1". */
  const SampleNamelist: seq<string> := seq(36, i requires 0 <= i < 36 => SampleLine)

  /** Every line of the example namelist has seven float and seven integer
      tokens, every float token is "1", and line 10 does not select the
      Fejer-Scherliess drifts. */
  lemma SampleNamelistShape()
    ensures Full(SampleNamelist) && AllOnes(SampleNamelist)
    ensures !FejerScherliess(SampleNamelist)
  {
    SampleFloatTokens();
    SampleIntTokens();
    SampleLineNotTrue();
  }

  /** The example namelist passes every read and does not select the
      Fejer-Scherliess drifts, so the only key check_standard_model reports
      is the Fourier coefficients. */
  lemma SampleStandardModel(exbCoeffs: seq<real>)
    ensures Readable(SampleNamelist)
    ensures WellFormed(NamelistEntries(SampleNamelist, exbCoeffs))
    ensures ModifiedKeys(NamelistEntries(SampleNamelist, exbCoeffs)) == [FourierKey]
  {
    SampleNamelistShape();
    FourierOnly(SampleNamelist, exbCoeffs);
  }
}
