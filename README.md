# sami2py `Model`: namelist metadata, standard-model check and Fortran-order reshape

This project models the core of the `Model` class of sami2py. `Model` loads the output of a SAMI2 ionosphere run. The model covers its three deterministic parts:

- **`_generate_metadata`.** It reads fixed lines of the run's namelist file with two regular-expression token extractors:
  - `find_int` takes the n-th match of `\d+`;
  - `find_float` takes the n-th match of `\d*\.\d+|\d+`.

  From these reads it fills the `MetaData` dict key by key. The values are the output format, the solar inputs, the ions in use, the multipliers, the drift model, the wind model, the geometry and the run-time settings.
- **`check_standard_model`.** It lists the non-default settings: the Fourier drift coefficients when present, then every multiplier key, in dict order, whose value is not 1.
- **Record sizing and reshaping in `_load_model`.** These are the unformatted record dimensions (`nz*nf*ni + 2` and `nz*nf + 2`, with nz = 101, nf = 98 and ni = 7) and `np.reshape(..., order="F")` into `(nz, nf)`, `(nz, nf, nt)` and `(nz, nf, ni, nt)`.

## Modules

The modules follow the program's structure:

- `Wrappers`: `Option`.
- `Text`: digit strings, `str.find`, `in` on strings, `', '.join` and `'{:02d}'`.
- `Slices`: Python slice semantics and `list.remove`.
- `Tokens`: the two `re.findall` scanners, as functions producing spans. Each has an independent characterisation of what the regular expression matches.
- `MetaData`: the dict as an ordered list of `(key, value)` pairs with distinct keys, and the `check_standard_model` specification.
- `Layout`: the keys section by section, and the lookups in the generated dict.
- `Namelist`: which line and token supply each value, and when every read succeeds.
- `SamiModel`: the class `Model`, whose methods fill and inspect `metaData` in place.
- `ColumnMajor`: the column-major index bijection, `Reshape` and `Flatten`.
- `Sample`: a concrete namelist on which every read succeeds, and what the check reports for it.
- `Loader`: the fields, files and records `_load_model` reads, and the reshape of each.

How Python behaviour is represented:

- A Python `IndexError` from a missing line or token is `Outcome.IndexError` in the methods and `None` in the functions.
- `d[k] = v` is `Store`: a present key is replaced in place and a new key is appended.
- `'.true.' in line` is `Contains`.

## Model

| member | source | states |
|---|---|---|
| Text.DecimalString | sami2py/_core_class.py:353 | the decimal digits of n: at least one digit, value n, no leading zero except for 0 itself, one digit exactly when n < 10 |
| Text.ZeroPad2 | sami2py/_core_class.py:353 | `'{:02d}'`: at least two digits with value n; the plain decimal form from 10 on, '0' and the digit below 10 |
| Text.FindFrom | sami2py/_core_class.py:406 | `str.find` from i: -1 exactly when the substring occurs nowhere at or after i, otherwise the first position where it occurs |
| Text.Find | sami2py/_core_class.py:406 | `str.find`: -1 exactly when the substring occurs nowhere, otherwise a position where it occurs with no occurrence before it |
| Text.Contains | sami2py/_core_class.py:343 | `'.true.' in line` holds exactly when the substring occurs at some position |
| Text.Join | sami2py/_core_class.py:326 | `', '.join(parts)`: empty for no parts; otherwise as long as the parts plus one separator between each two, and starting with the first part |
| Text.DigitsValue | sami2py/_core_class.py:311 | `int()` of a digit string, leading zeros allowed: a value below 10 to the power of its length |
| Text.FindPositive | sami2py/_core_class.py:406 | `find('Multiplier') > 0` exactly when the key does not start with it but contains it further on |
| Text.JoinAppend | sami2py/_core_class.py:326 | joining two non-empty lists puts exactly one separator between the two joins |
| Slices.SliceBound | sami2py/_core_class.py:326 | a slice bound as Python reads it: clamped to the list length, negative bounds counted from the end, and below -len taken as 0 |
| Slices.Slice | sami2py/_core_class.py:326 | `ions[nion1:nion2]`: for the two bounds a and b as Python reads them, the elements from a up to (not including) b, and empty when b <= a |
| Slices.SliceNonNegative | sami2py/_core_class.py:326 | with non-negative bounds, `ions[lo:hi]` is empty when hi <= lo or lo is past the end, and otherwise the run from lo to hi cut at the end |
| Slices.SliceNegativeStart | sami2py/_core_class.py:323-326 | a start of -1 (an ion index read as 0) counts from the end of the list |
| Slices.SliceIsRun | sami2py/_core_class.py:326 | a slice is a contiguous run of the list |
| Slices.RemoveFirst | sami2py/_core_class.py:402 | `list.remove`: the list with its first occurrence of the element dropped and the order of the rest kept, so one element fewer and the multiset minus that element |
| Tokens.IntTokens | sami2py/_core_class.py:309-311 | every `\d+` token is non-empty and all digits |
| Tokens.DigitRuns | sami2py/_core_class.py:311 | the `\d+` scanner: its spans are maximal digit runs in increasing order that cover every digit; DigitRunsCharacterized gives the converse |
| Tokens.DigitRunsCharacterized | sami2py/_core_class.py:309-311 | a list of spans is what the `\d+` scanner returns if and only if its spans are maximal digit runs in strictly increasing order that cover every digit |
| Tokens.FindIntSpec | sami2py/_core_class.py:309-311 | `find_int(line, ind)` fails exactly when the line has at most ind digit runs; otherwise it is the value of the ind-th maximal run, with exactly ind distinct runs before it |
| Tokens.FloatMatchEnd | sami2py/_core_class.py:305-307 | the match starting at i ends at the end of the line or at a non-digit, and is non-empty exactly when a digit, or a '.' followed by a digit, is at i |
| Tokens.FloatMatchShape | sami2py/_core_class.py:305-307 | a non-empty match of the float expression is a whole number or digits, '.', digits, and a whole-number match is not followed by '.' and a digit |
| Tokens.FloatRunsSpec | sami2py/_core_class.py:305-307 | the float tokens are matches of the expression, in order and non-overlapping; together they cover every digit of the line, and each token that starts with a digit starts a digit run and does not follow a '.' |
| Tokens.FloatSpanIsMatch | sami2py/_core_class.py:305-307 | a float token starting at a position can only end where the match from that position ends |
| Tokens.FloatRunsCharacterized | sami2py/_core_class.py:305-307 | a list of spans is what the `\d*\.\d+\|\d+` scanner returns if and only if its spans are float tokens, in order and non-overlapping, covering every digit, none starting inside a digit run or just after a '.' |
| Tokens.FloatRuns | sami2py/_core_class.py:307 | the float scanner: its spans meet the independent description of findall's matches (float tokens in order, covering every digit, none starting inside a digit run or after a '.'); FloatRunsCharacterized gives the converse |
| Tokens.DecimalValue | sami2py/_core_class.py:307 | `float(token)` as an exact decimal: never negative, at least the value of its whole-number digits and below that plus one |
| Tokens.FloatTokens | sami2py/_core_class.py:305-307 | `re.findall` of the float expression: the texts of the scanner's spans, pinned by FloatRunsCharacterized |
| Tokens.FindFloat | sami2py/_core_class.py:305-307 | `find_float(line, ind)` before the conversion: the ind-th float token, absent where Python raises IndexError |
| Tokens.FindInt | sami2py/_core_class.py:309-311 | `find_int(line, ind)`: the value of the ind-th `\d+` token, absent where Python raises IndexError; FindIntSpec states it |
| Tokens.FloatTokensShape | sami2py/_core_class.py:305-307 | every float token is a whole number or a dotted number |
| Tokens.NoDotSameTokens | sami2py/_core_class.py:305-311 | on a line without '.', the float and int extractors find the same tokens |
| Tokens.FloatTokenExamples | sami2py/_core_class.py:305-307 | "1.5" gives ["1.5"], ".5" gives [".5"] and "1." gives ["1"] |
| Tokens.FloatTokenNeighbourExamples | sami2py/_core_class.py:305-307 | "1.5.3" gives ["1.5", ".3"] and "a.5" gives [".5"] |
| Tokens.DecimalValueIsOne | sami2py/_core_class.py:406 | a token's value is 1 exactly when its whole part reads 1 and its fraction, if any, is all zeros |
| MetaData.Get | sami2py/_core_class.py:406 | `MetaData[k]` is found exactly when k is a key, and then the pair (k, value) is in the dict |
| MetaData.GetIsEntry | sami2py/_core_class.py:406 | on distinct keys, the lookup of k gives w exactly when (k, w) is an entry |
| MetaData.Store | sami2py/_core_class.py:313-369 | `d[k] = v` on the dict as an ordered list of pairs; StoreSpec states it |
| MetaData.StoreAll | sami2py/_core_class.py:313-369 | the assignments of a run of entries one at a time, in order |
| MetaData.StoreSpec | sami2py/_core_class.py:313-369 | `d[k] = v` keeps the keys distinct and makes k look up v, with every other lookup unchanged; a present key keeps the key order, a new key is appended, and no other entry appears |
| MetaData.StoreAllAppend | sami2py/_core_class.py:313-369 | assigning two runs of entries one after the other is assigning their concatenation |
| MetaData.StoreAllFresh | sami2py/_core_class.py:313-369 | assigning entries whose keys are new appends them in order |
| MetaData.StoreAllIntoEmpty | sami2py/_core_class.py:206-207 | assigning entries with distinct keys into a new dict gives exactly those entries in that order |
| MetaData.StoreAllWellFormed | sami2py/_core_class.py:313-369 | assignments keep the keys distinct and the coefficient array only under 'Fourier Coeffs' |
| MetaData.DiffersFromOne | sami2py/_core_class.py:406 | `value != 1` for a stored scalar: a float or integer other than 1, the flag False (True equals 1), and any string |
| MetaData.ChangedMultipliers | sami2py/_core_class.py:405-407 | the multiplier half of the result: the keys, in dict order, that pass both tests; ChangedMultipliersMembers and the lemmas below state it |
| MetaData.ModifiedKeys | sami2py/_core_class.py:394-409 | the whole result: 'Fourier Coeffs' when present, then the changed multipliers; ModifiedKeysSpec states it |
| MetaData.ChangedMultipliersPrefix | sami2py/_core_class.py:405-407 | one more tested key is appended exactly when 'Multiplier' occurs after its first character and its value is not 1 |
| MetaData.ChangedMultipliersMembers | sami2py/_core_class.py:405-407 | a key is reported exactly when some entry with that key passes both tests |
| MetaData.ChangedMultipliersInKeyOrder | sami2py/_core_class.py:405-407 | the reported multipliers are a subsequence of the dict's keys |
| MetaData.ChangedMultipliersNoDuplicates | sami2py/_core_class.py:405-407 | the reported multipliers have no duplicates and never include 'Fourier Coeffs' |
| MetaData.ChangedMultipliersAppend | sami2py/_core_class.py:405-407 | the changed multipliers of two runs of entries are those of each, in order |
| MetaData.RemoveFourierKey | sami2py/_core_class.py:398-402 | removing 'Fourier Coeffs' from the key list leaves the keys of the dict without that entry, changes no other entry, and leaves the multiplier result unchanged |
| MetaData.Tested | sami2py/_core_class.py:395-402 | the entries the loop tests: their keys are the key list after the removal, and their changed multipliers are the dict's |
| MetaData.TestedEntry | sami2py/_core_class.py:405-406 | each tested key is not 'Fourier Coeffs' and looks up its own value in MetaData |
| MetaData.ModifiedKeysSpec | sami2py/_core_class.py:394-409 | the result starts with 'Fourier Coeffs' exactly when that key is present; a key is in it exactly when it is that key and present, or a tested multiplier whose value is not 1; no duplicates; multipliers in dict order |
| MetaData.ModifiedKeysEmpty | sami2py/_core_class.py:394-409 | with no Fourier coefficients and every multiplier equal to 1, the result is empty |
| Layout.SectionKeysDistinct | sami2py/_core_class.py:313-369 | the keys of each section are distinct and no two sections share a key |
| Layout.Zip | sami2py/_core_class.py:313-369 | a section's entries have its keys in order, each paired with its value, and hold no coefficient array |
| Layout.DriftSection | sami2py/_core_class.py:343-350 | the drift entries: 'ExB model' alone in the Fejer-Scherliess branch, then also 'Fourier Coeffs' in the Fourier branch; the array is stored only under 'Fourier Coeffs' |
| Layout.EntriesWellFormed | sami2py/_core_class.py:313-369 | `Entries`, the dict for given section values, has distinct keys, in the order header, multipliers, drift model, wind/geometry/run time, and holds the array only under 'Fourier Coeffs' |
| Layout.FourierKeyInSections | sami2py/_core_class.py:343-350 | 'Fourier Coeffs' is among the generated keys exactly in the Fourier branch |
| Layout.HeaderLookups | sami2py/_core_class.py:313-326 | each header key looks up its value |
| Layout.MultiplierLookups | sami2py/_core_class.py:330-341 | each multiplier key looks up its value |
| Layout.RunLookups | sami2py/_core_class.py:352-369 | each wind, geometry and run-time key looks up its value |
| Layout.HeaderKeyLookups | sami2py/_core_class.py:315-320 | 'F10.7A', 'F10.7', 'ap', 'Neutral Atmosphere Model' and 'EUV Model' look up header values 1 to 5 |
| Layout.OtherMultiplierKeyLookups | sami2py/_core_class.py:337-341 | the T_exo, T_n, EUV, ExB Drift and Wind multiplier keys look up multiplier values 7 to 11 |
| Layout.GeometryKeyLookups | sami2py/_core_class.py:356-360 | 'rmin', 'rmax', 'gams', 'gamp' and 'altmin' look up run values 1 to 5 |
| Layout.RuntimeKeyLookups | sami2py/_core_class.py:363-369 | 'dthr', 'hrinit', 'hrpr', 'hrmax', 'dt0', 'maxstep' and 'denmin' look up run values 6 to 12 |
| Layout.DriftLookups | sami2py/_core_class.py:343-350 | 'ExB model' is 'Fejer-Scherliess' or 'Fourier Series' by the branch; 'Fourier Coeffs' is present exactly in the Fourier branch and holds the coefficients |
| Layout.KeyClasses | sami2py/_core_class.py:329-341 | exactly the multiplier keys contain 'Multiplier' after their first character |
| Layout.MultiplierChanges | sami2py/_core_class.py:405-407 | a float multiplier is reported exactly when it is not 1; none is reported exactly when all are 1 |
| Layout.StandardModelOfEntries | sami2py/_core_class.py:371-409 | on the generated dict, the check gives 'Fourier Coeffs' in the Fourier branch and then the changed multipliers; no multiplier is reported exactly when all are 1, and the result is empty exactly with Fejer-Scherliess drifts and all multipliers 1 |
| Namelist.IonsUsed | sami2py/_core_class.py:323-326 | `', '.join(ions[nion1:nion2])` with Python's slice bounds; IonsUsedEmpty and IonsUsedExamples state it |
| Namelist.WindModelName | sami2py/_core_class.py:353 | `'HWM-{:02d}'.format(code)`; WindModelRoundTrip states it |
| Namelist.IonsUsedEmpty | sami2py/_core_class.py:323-326 | the ions string is empty exactly when the Python-read end bound is not after the start bound |
| Namelist.IonsUsedExamples | sami2py/_core_class.py:323-326 | the slices 0:6 and 0:7 join the first six and all seven species, -1:7 gives "N+", and 7:7 gives "" |
| Namelist.WindModelRoundTrip | sami2py/_core_class.py:352-353 | the first integer of `'HWM-{:02d}'.format(code)` is code, and there is no second one |
| Namelist.FloatAt | sami2py/_core_class.py:305-307 | `find_float(namelist[line], ind)` succeeds exactly when the line exists and has more than ind float tokens, and is then the ind-th token |
| Namelist.IntAt | sami2py/_core_class.py:309-311 | `find_int(namelist[line], ind)` succeeds exactly when the line exists and has more than ind int tokens, and is then the value of the ind-th token |
| Namelist.F | sami2py/_core_class.py:305-307 | `float(find_float(namelist[line], ind))`: a float, the exact decimal value of the ind-th float token of the line |
| Namelist.I | sami2py/_core_class.py:309-311 | `find_int(namelist[line], ind)`: the value of the ind-th integer token of the line |
| Namelist.N | sami2py/_core_class.py:309-311 | `find_int(namelist[line], ind)` as stored: an integer, the value of the ind-th integer token of the line |
| Namelist.FejerScherliess | sami2py/_core_class.py:343 | `'.true.' in namelist[10]`: holds exactly when '.true.' occurs in line 10 |
| Namelist.Readable | sami2py/_core_class.py:313-369 | every read of `_generate_metadata` succeeds, which needs line 35, the last line read; the section lemmas below give the exact conditions |
| Namelist.RunReadable | sami2py/_core_class.py:352-369 | the wind, geometry and run-time reads succeed, which needs line 35 |
| Namelist.HeaderReadableExactly | sami2py/_core_class.py:313-326 | the header reads raise no IndexError exactly when there are more than 21 lines, lines 14 and 16 have a float and an integer token, line 15 three float tokens, and lines 20 and 21 two integer tokens each |
| Namelist.MultipliersReadableExactly | sami2py/_core_class.py:329-341 | the multiplier reads raise no IndexError exactly when there are more than 34 lines, line 28 has seven float tokens, lines 33, 29 and 34 one each, and lines 24 and 23 two each |
| Namelist.OtherMultipliersReadableExactly | sami2py/_core_class.py:337-341 | the five single-multiplier reads raise no IndexError exactly when there are more than 34 lines, lines 33, 29 and 34 have a float token, and lines 24 and 23 two |
| Namelist.GeometryReadableExactly | sami2py/_core_class.py:352-360 | the wind and geometry reads raise no IndexError exactly when there are more than 35 lines, lines 35, 26 and 27 have an integer token, and lines 11, 12 and 13 a float token |
| Namelist.RuntimeReadableExactly | sami2py/_core_class.py:362-369 | the run-time reads raise no IndexError exactly when there are more than 30 lines, line 2 has an integer token, and lines 5, 22, 6, 3, 4 and 30 a float token |
| Namelist.HeaderValues | sami2py/_core_class.py:313-326 | one value for each header key; FormatLookup, SolarLookups, ModelNameLookups and IonsLookup give the line and token behind each key |
| Namelist.NeutralValues | sami2py/_core_class.py:329-336 | seven values, one per neutral species; NeutralLookups gives their tokens |
| Namelist.OtherMultiplierValues | sami2py/_core_class.py:337-341 | five values; OtherMultiplierLookups gives their tokens |
| Namelist.MultiplierValues | sami2py/_core_class.py:329-341 | one value for each multiplier key: the neutral multipliers, then the five others |
| Namelist.GeometryValues | sami2py/_core_class.py:352-360 | six values; WindModelLookup and GeometryLookups give their tokens |
| Namelist.RuntimeValues | sami2py/_core_class.py:362-369 | seven values; RuntimeLookups gives their tokens |
| Namelist.RunValues | sami2py/_core_class.py:352-369 | one value for each run key: the wind and geometry values, then the run-time values |
| Namelist.MultiplierValuesAreFloats | sami2py/_core_class.py:330-341 | every multiplier is stored as a float |
| Namelist.NeutralAreFloats | sami2py/_core_class.py:329-336 | each of the seven neutral multipliers is stored as a float |
| Namelist.OtherMultipliersAreFloats | sami2py/_core_class.py:337-341 | each of the five other multipliers is stored as a float |
| Namelist.NamelistEntries | sami2py/_core_class.py:313-369 | the dict the reads build, in assignment order; NamelistSections and the lookups state it |
| Namelist.NamelistSections | sami2py/_core_class.py:313-369 | the generated dict is its six sections in order, each of its own keys paired with the values of that section's reads |
| Namelist.NamelistEntriesWellFormed | sami2py/_core_class.py:313-369 | the generated dict has distinct keys: the header, the multipliers, 'ExB model' (and 'Fourier Coeffs' in the Fourier branch), then the run keys |
| Namelist.FormatLookup | sami2py/_core_class.py:313 | 'fmtout' is whether '.true.' occurs in line 1 |
| Namelist.IonsLookup | sami2py/_core_class.py:323-326 | 'Ions Used' joins the ions from the second integer of line 20 minus 1 to the second integer of line 21 minus 1 |
| Namelist.SolarLookups | sami2py/_core_class.py:315-317 | 'F10.7A' is float 0 of line 14, 'F10.7' float 2 of line 15, and 'ap' integer 0 of line 16 |
| Namelist.ModelNameLookups | sami2py/_core_class.py:319-320 | 'Neutral Atmosphere Model' is 'NRLMSISe-2000' and 'EUV Model' is 'EUVAC', whatever the namelist holds |
| Namelist.NeutralLookups | sami2py/_core_class.py:329-336 | the seven neutral multipliers H..N are float tokens 0..6 of line 28, positionally |
| Namelist.OtherMultiplierLookups | sami2py/_core_class.py:337-341 | 'T_exo Multiplier', 'T_n Multiplier' and 'EUV Multiplier' are float 0 of lines 33, 29 and 34; 'ExB Drift Multiplier' and 'Wind Multiplier' are float 1 of lines 24 and 23 |
| Namelist.NamelistDriftLookups | sami2py/_core_class.py:343-350 | 'ExB model' is 'Fejer-Scherliess' exactly when line 10 contains '.true.' and 'Fourier Series' otherwise; 'Fourier Coeffs' is present only then and holds the exb.inp coefficients, so the lookup that adds the Fourier drift always finds it |
| Namelist.WindModelLookup | sami2py/_core_class.py:352-353 | 'Wind Model' is "HWM-" and the first integer of line 35, zero-padded to two digits |
| Namelist.GeometryLookups | sami2py/_core_class.py:356-360 | 'rmin', 'rmax' and 'altmin' are float 0 of lines 11, 12 and 13; 'gams' and 'gamp' are integer 0 of lines 26 and 27 |
| Namelist.RuntimeLookups | sami2py/_core_class.py:363-369 | 'dthr', 'hrinit', 'hrpr', 'hrmax', 'dt0' and 'denmin' are float 0 of lines 5, 22, 6, 3, 4 and 30; 'maxstep' is integer 0 of line 2 |
| Namelist.StandardModelOfNamelist | sami2py/_core_class.py:371-409 | the check on a loaded namelist: 'Fourier Coeffs' in the Fourier branch, then the multipliers in key order whose value is not 1; no multiplier is reported exactly when all are 1; empty exactly with Fejer-Scherliess drifts and every multiplier 1 |
| Namelist.FullReads | sami2py/_core_class.py:305-311 | on a namelist of at least 36 lines each holding seven float and seven integer tokens, both finders succeed for every line before 36 and every token before 7 |
| Namelist.ReadableWhenFull | sami2py/_core_class.py:313-369 | every read of the metadata generator succeeds on such a namelist |
| Namelist.UnitMultipliers | sami2py/_core_class.py:329-341 | on such a namelist whose float tokens all read "1", every multiplier is stored as 1.0 |
| Namelist.FourierOnly | sami2py/_core_class.py:313-409 | on such a namelist whose line 10 does not select the Fejer-Scherliess drifts, every read succeeds and the check on its dict reports exactly ['Fourier Coeffs'] |
| Sample.SampleRunsFrom | sami2py/_core_class.py:305-307 | on the line "1 1 1 1 1 1 1" the float scanner from an even position k finds the one-digit tokens at k, k+2 and so on |
| Sample.SampleFloatTokens | sami2py/_core_class.py:305-307 | that line has seven float tokens, each "1" |
| Sample.SampleIntTokens | sami2py/_core_class.py:309-311 | that line has seven integer tokens |
| Sample.SampleLineNotTrue | sami2py/_core_class.py:343 | that line does not contain '.true.' |
| Sample.SampleNamelistShape | sami2py/_core_class.py:313-369 | the 36-line namelist of such lines is full, its float tokens all read "1", and it does not select the Fejer-Scherliess drifts |
| Sample.SampleStandardModel | sami2py/_core_class.py:313-409 | that namelist passes every read, and the check on its dict reports exactly ['Fourier Coeffs'] |
| SamiModel.EntriesInSections | sami2py/_core_class.py:313-369 | assigning the six sections one after the other gives the same dict as assigning all the generated entries |
| SamiModel.Model.constructor | sami2py/_core_class.py:85-90 | the run's identity as given, with an empty namelist and dict |
| SamiModel.Model.StoreHeader | sami2py/_core_class.py:313-326 | passes exactly when the header reads succeed, and then assigns the header entries over the old dict |
| SamiModel.Model.StoreNeutralMultipliers | sami2py/_core_class.py:329-336 | passes exactly when line 28 has seven float tokens, and then assigns the seven neutral multipliers |
| SamiModel.Model.StoreOtherMultipliers | sami2py/_core_class.py:337-341 | passes exactly when the five reads succeed, and then assigns the five multipliers |
| SamiModel.Model.StoreDrift | sami2py/_core_class.py:343-350 | passes exactly when line 10 exists, and then assigns the drift-model entries of its branch |
| SamiModel.Model.StoreGeometry | sami2py/_core_class.py:352-360 | passes exactly when the wind and geometry reads succeed, and then assigns those entries |
| SamiModel.Model.StoreRuntime | sami2py/_core_class.py:362-369 | passes exactly when the run-time reads succeed, and then assigns those entries |
| SamiModel.Model.GenerateMetadata | sami2py/_core_class.py:289-369 | passes exactly when every read succeeds, and then the dict is the old one with all generated entries assigned in order; keys stay distinct |
| SamiModel.Model.LoadNamelist | sami2py/_core_class.py:202-207 | keeps the namelist lines, and on success the dict is exactly the generated entries |
| SamiModel.Model.CheckStandardModel | sami2py/_core_class.py:371-409 | returns the specified result: 'Fourier Coeffs' if present, then the tested keys, in dict order, that contain 'Multiplier' after their first character and whose value is not 1 |
| SamiModel.Model.TakeFourierKey | sami2py/_core_class.py:394-402 | the result starts as ['Fourier Coeffs'] exactly when the dict holds that key, and the keys left to test are those of the dict without its Fourier entry, in dict order |
| SamiModel.Model.TestMultipliers | sami2py/_core_class.py:404-407 | over those keys, in order, returns exactly the changed multipliers of the tested entries |
| ColumnMajor.OffsetBound | sami2py/_core_class.py:262-268 | the column-major offset of an in-bounds index is below the array size |
| ColumnMajor.Offset | sami2py/_core_class.py:262-282 | the Fortran-order position of an index: the first axis varies fastest; OffsetBound, UnravelOffset and OffsetUnravel state it is a bijection |
| ColumnMajor.Reshape | sami2py/_core_class.py:262-282 | `np.reshape(flat, shape, order="F")`, absent where numpy raises because the sizes differ; ReshapeSpec and ReshapeAt state it |
| ColumnMajor.Flatten | sami2py/_core_class.py:262-282 | the elements of an array in Fortran order, as many as the shape's size; FlattenReshape and ReshapeFlatten make it Reshape's inverse |
| ColumnMajor.UnravelOffset | sami2py/_core_class.py:262-268 | unravelling the offset of an in-bounds index gives the index back |
| ColumnMajor.OffsetUnravel | sami2py/_core_class.py:262-268 | every position below the size unravels to an in-bounds index whose offset is that position, so the offset is a bijection onto [0, size) |
| ColumnMajor.ReshapeSpec | sami2py/_core_class.py:262-268 | `np.reshape` succeeds exactly when the sizes agree, and gives an array of the requested shape |
| ColumnMajor.ReshapeAt | sami2py/_core_class.py:262-268 | the element at an index of the reshaped array is the flat element at its column-major offset |
| ColumnMajor.FlattenReshape | sami2py/_core_class.py:262-268 | reshaping and then flattening in Fortran order gives the flat data back |
| ColumnMajor.ReshapeFlatten | sami2py/_core_class.py:262-268 | flattening and then reshaping gives every element back at its index |
| ColumnMajor.Rank4 | sami2py/_core_class.py:265-279 | for four axes: size n0*n1*n2*n3, offset i0 + n0*(i1 + n1*(i2 + n2*i3)) and the bounds axis by axis |
| ColumnMajor.Rank3 | sami2py/_core_class.py:268-281 | for three axes: size n0*n1*n2, offset i0 + n0*(i1 + n1*i2) and the bounds axis by axis |
| ColumnMajor.Rank2 | sami2py/_core_class.py:262-264 | for two axes: size n0*n1, offset i0 + n0*i1 and the bounds axis by axis |
| Loader.FieldsReadOnce | sami2py/_core_class.py:216-260 | `FieldsRead`, the fields in `_load_model`'s read order, holds every field exactly once, with denn and u4 only with neutral output |
| Loader.FieldNameInjective | sami2py/_core_class.py:216-260 | distinct fields have distinct names, so no two reads share a text file or a record file |
| Loader.Dims | sami2py/_core_class.py:269-282 | every field has the z and f axes, the ion axis exactly for the species fields, and the ut axis exactly for the time-dependent fields |
| Loader.FieldShape | sami2py/_core_class.py:262-281 | the reshape has one extent per dataset axis, starting with (nz, nf) |
| Loader.ReadsSpec | sami2py/_core_class.py:219-258 | with formatted output each field is read from `<name>f.dat`; otherwise as unformatted data of its name, with dimensions exactly for the time-dependent fields, namely nt records whose payloads fill the field's reshape exactly |
| Loader.RecordLength | sami2py/_core_class.py:239-258 | `dim0`: nz*nf*ni + 2 for the species fields and nz*nf + 2 for te and u4 |
| Loader.ReadOf | sami2py/_core_class.py:216-260 | the read of one field by output format, as ReadsSpec states |
| Loader.Reads | sami2py/_core_class.py:216-260 | one read per field read, in `_load_model`'s order |
| Loader.RecordLengths | sami2py/_core_class.py:238-258 | the record length is 69288 for deni, vsi, ti and denn and 9900 for te and u4 |
| Loader.RecordFitsShape | sami2py/_core_class.py:238-268 | nt records, each without its two extra values, hold exactly as many values as the field's reshape has elements |
| Loader.LocationAt | sami2py/_core_class.py:262-264 | for a grid coordinate (glat, glon, zalt), nz*nf flat values reshape to its field shape (101, 98), and point (i, j) is flat value i + 101*j |
| Loader.SpeciesFieldAt | sami2py/_core_class.py:265-279 | for a species field (deni, vsi, ti, denn), nz*nf*ni*nt flat values reshape to its field shape (101, 98, 7, nt), and element (i, j, k, t) is flat value i + 101*(j + 98*(k + 7*t)) |
| Loader.SingleFieldAt | sami2py/_core_class.py:268-281 | for te or u4, nz*nf*nt flat values reshape to its field shape (101, 98, nt), and element (i, j, t) is flat value i + 101*(j + 98*t) |
| Loader.FourierTerms | sami2py/_core_class.py:190 | `int((len - 1)/2)`: for a non-empty list, the largest n with 2n <= len-1; 0 for up to two coefficients |
| Loader.FourierIndices | sami2py/_core_class.py:192-194 | return_fourier reads 1 + 2*NumF coefficients |
| Loader.FourierIndicesInRange | sami2py/_core_class.py:190-194 | every coefficient index return_fourier reads is in range exactly when the list is not empty; an odd-length list is read in full |

## Left out

- File and library I/O is not modelled. This covers `open`, `readlines`, `np.loadtxt`, and `generate_path` and `get_unformatted_data` from `sami2py.utils`, which is not part of this model. The namelist lines and the exb.inp coefficients are parameters of `LoadNamelist` and `GenerateMetadata`. The reads are described by `Loader.Reads`, not performed.
- How `get_unformatted_data` uses the two extra values of each record is not modelled, because its source is not part of this model. `Loader.RecordFitsShape` only states that one record is one time step of the field plus two values.
- The layout of the text files read in the formatted branch is not modelled. `np.loadtxt` gives a 2-D table, and `np.reshape(..., order="F")` reads that table column by column. So the `flat` argument of `ColumnMajor.Reshape` stands for the table read in column-major order, not for the file's values in row order.
- `Text.IsDigit`: only the ASCII digits '0' to '9' are digits. In Python 3, `\d` in a str pattern matches every Unicode decimal digit, and `int()` and `float()` accept them too. So the tokenizers (`Tokens.IntTokens`, `Tokens.FloatTokens`) and `Text.DigitsValue` treat a non-ASCII digit as a separator.
- `Namelist.NamelistEntries`: the exb.inp coefficients are taken as a flat list of reals. `np.loadtxt` gives a 0-d array for a file with a single value, on which `len()` in `return_fourier` raises TypeError. It gives a 2-D array for a file with several columns, where `len()` counts rows and `coeffs[2*i-1]` picks rows. Both shapes are not modelled.
- `_calculate_slt`, the time axis read from time.dat and the evaluation of `return_fourier` are left out, because they are floating-point trigonometry. Only `return_fourier`'s term count and the indices it reads are modelled.
- Building the `xarray.Dataset` is left out, because it is a library call. Only each variable's axes (`Loader.Dims`) are modelled.
- `__repr__` (float formatting) and `plot_lat_alt` (deprecated matplotlib plotting) are left out.
- `Namelist.F`: `float(token)` is modelled as the exact decimal value of the token, not the rounded binary float. So `value != 1` in `check_standard_model` is the exact decimal comparison. A token such as "1.00000000000000001", which Python rounds to 1.0, counts here as different from 1.
- `SamiModel.Model.GenerateMetadata`: each section checks all of its reads before assigning anything. `_generate_metadata` raises at the first failing read and leaves that section's earlier assignments in the dict. That partial dict is not modelled, because the exception escapes `__init__` and the object is never returned.
- `SamiModel.Model.StoreHeader`: the consecutive assignments of a section are written as one `StoreAll` of the section's entries. By its definition that is the same assignments one at a time, in order. The same holds for the other section methods.
- `SamiModel.Model.constructor`: it does not call the load itself. `__init__`'s call to `_load_model` is `LoadNamelist`.
- The `model_type` parameter of `check_standard_model` is left out, because its body never reads it.
- `sami2py/tests/test_utils.py` only exercises `generate_path`, which is not part of this model.

## Notes

- The whole result of `check_standard_model` is not in dict key order when 'Fourier Coeffs' and a multiplier are both reported. 'Fourier Coeffs' is assigned after the multipliers (lines 328-341 against 349) but is reported first (lines 399-401). Only the multiplier part is a subsequence of the keys, which is what `MetaData.ModifiedKeysSpec` states.
- `check_standard_model` removes 'Fourier Coeffs' from its copy of the key list before the multiplier loop. So the array value is never compared with 1, and the model's `DiffersFromOne` is never applied to it.
- The ion bounds are the second integer of lines 20 and 21 minus 1. A token 0 gives the bound -1, which Python reads from the end of the list. `Slices.SliceNegativeStart` and `Namelist.IonsUsedExamples` (`-1:7` gives "N+") state this.
