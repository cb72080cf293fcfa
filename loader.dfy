/** What _load_model reads after the namelist (sami2py/_core_class.py:172-285):
    the grid and output fields, from text files or from unformatted records,
    and the reshaping of each into the model's axes. */
module Loader {
  import opened Wrappers
  import opened ColumnMajor

  /** Points along each field line. */
  const NZ: nat := 101
  /** Field lines. */
  const NF: nat := 98
  /** Ion (and neutral) species. */
  const NI: nat := 7

  /** The arrays of a run: the grid coordinates, the ion density, velocity
      and temperature, the electron temperature, and with neutral output the
      neutral density and the wind. */
  datatype Field = Glat | Glon | Zalt | Deni | Vsi | Ti | Te | Denn | U4

  /** The fields a run reads, in `_load_model`'s order; the neutral ones only
      when the run was made with neutral output. */
  function FieldsRead(outn: bool): seq<Field> {
    [Glat, Glon, Zalt, Deni, Vsi, Ti, Te] + (if outn then [Denn, U4] else [])
  }

  /** Every field is read exactly once, except that the neutral density and
      the wind are read only with neutral output. */
  lemma FieldsReadOnce(outn: bool, f: Field)
    ensures f in FieldsRead(outn) <==> outn || !(f == Denn || f == U4)
    ensures forall i, j :: 0 <= i < j < |FieldsRead(outn)| ==> FieldsRead(outn)[i] != FieldsRead(outn)[j]
  {
    var fs := FieldsRead(outn);
    match f
    case Glat => assert fs[0] == f;
    case Glon => assert fs[1] == f;
    case Zalt => assert fs[2] == f;
    case Deni => assert fs[3] == f;
    case Vsi => assert fs[4] == f;
    case Ti => assert fs[5] == f;
    case Te => assert fs[6] == f;
    case Denn => if outn { assert fs[7] == f; }
    case U4 => if outn { assert fs[8] == f; }
  }

  /** The name the model files of a field are based on. */
  function FieldName(f: Field): string {
    match f
    case Glat => "glat"
    case Glon => "glon"
    case Zalt => "zalt"
    case Deni => "deni"
    case Vsi => "vsi"
    case Ti => "ti"
    case Te => "te"
    case Denn => "denn"
    case U4 => "u4"
  }

  /** Distinct fields have distinct names, so no two reads share a file. */
  lemma FieldNameInjective(f: Field, g: Field)
    ensures FieldName(f) == FieldName(g) <==> f == g
  {
  }

  /** The field has one value per ion or neutral species. */
  predicate PerSpecies(f: Field) {
    f == Deni || f == Vsi || f == Ti || f == Denn
  }

  /** The field is a grid coordinate, read once for the whole run. */
  predicate Location(f: Field) {
    f == Glat || f == Glon || f == Zalt
  }

  /** The axes the field is stored with in the dataset:
      z, f, then ion for species fields, then ut for time-dependent ones. */
  function Dims(f: Field): (ds: seq<string>)
    ensures "z" in ds && "f" in ds
    ensures "ion" in ds <==> PerSpecies(f)
    ensures "ut" in ds <==> !Location(f)
  {
    if Location(f) then ["z", "f"]
    else if PerSpecies(f) then ["z", "f", "ion", "ut"]
    else ["z", "f", "ut"]
  }

  /** The shape the field is reshaped to: (nz, nf), (nz, nf, ni, nt) or
      (nz, nf, nt). */
  function FieldShape(f: Field, nt: nat): (shape: Shape)
    ensures |shape| == |Dims(f)|
    ensures shape[..2] == [NZ, NF]
  {
    if Location(f) then [NZ, NF]
    else if PerSpecies(f) then [NZ, NF, NI, nt]
    else [NZ, NF, nt]
  }

  /** How a field is read. */
  datatype Read =
    | LoadText(file: string)
    | Unformatted(name: string, dim: Option<(nat, nat)>)

  /** The record length of a time-dependent field in the unformatted
      files: one time step of the field and two values more. */
  function RecordLength(f: Field): nat {
    if PerSpecies(f) then NZ * NF * NI + 2 else NZ * NF + 2
  }

  /** The read of one field: the text file `<name>f.dat` when the run wrote
      formatted output, otherwise the unformatted data of that name, with
      (record length, nt) as its dimensions unless the field is a grid
      coordinate. */
  function ReadOf(f: Field, fmtout: bool, nt: nat): Read {
    if fmtout then LoadText(FieldName(f) + "f.dat")
    else if Location(f) then Unformatted(FieldName(f), None)
    else Unformatted(FieldName(f), Some((RecordLength(f), nt)))
  }

  /** All the reads of a run, in order. */
  function Reads(fmtout: bool, outn: bool, nt: nat): (rs: seq<Read>)
    ensures |rs| == |FieldsRead(outn)|
  {
    var fs := FieldsRead(outn);
    seq(|fs|, i requires 0 <= i < |fs| => ReadOf(fs[i], fmtout, nt))
  }

  /** The i-th read of a run reads the i-th field: from its text file
      `<name>f.dat` with formatted output; otherwise as unformatted data of
      its name, with dimensions exactly for the time-dependent fields, nt
      records whose payloads hold as many values as the field's reshape
      needs. */
  lemma ReadsSpec(fmtout: bool, outn: bool, nt: nat, i: nat)
    requires i < |FieldsRead(outn)|
    ensures var f, r := FieldsRead(outn)[i], Reads(fmtout, outn, nt)[i];
      && (fmtout ==> r == LoadText(FieldName(f) + "f.dat"))
      && (!fmtout ==> r.Unformatted? && r.name == FieldName(f) && (r.dim.Some? <==> !Location(f)))
      && (!fmtout && r.dim.Some? ==> r.dim.value.1 == nt && Size(FieldShape(f, nt)) == (r.dim.value.0 - 2) * nt)
  {
    var f := FieldsRead(outn)[i];
    if !Location(f) {
      RecordFitsShape(f, nt);
    }
  }

  /** The record lengths `_load_model` uses: 69288 values for the species fields
      and 9900 for the others, each one time step of the field's grid plus
      two. */
  lemma RecordLengths()
    ensures RecordLength(Deni) == 69288 && RecordLength(Vsi) == 69288
    ensures RecordLength(Ti) == 69288 && RecordLength(Denn) == 69288
    ensures RecordLength(Te) == 9900 && RecordLength(U4) == 9900
  {
  }

  /** A record holds exactly one time step of its field plus two values, so
      nt time steps of record payloads are as many values as the field's
      reshape needs. */
  lemma RecordFitsShape(f: Field, nt: nat)
    requires !Location(f)
    ensures Size(FieldShape(f, nt)) == (RecordLength(f) - 2) * nt
  {
    var shape := FieldShape(f, nt);
    if PerSpecies(f) {
      Rank4(shape, [0, 0, 0, 0]);
    } else {
      Rank3(shape, [0, 0, 0]);
    }
  }

  /** A grid coordinate read as nz*nf values reshapes to its field shape
      (nz, nf), and its point (i, j) is value i + nz*j. */
  lemma LocationAt<T>(f: Field, nt: nat, flat: seq<T>, i: nat, j: nat)
    requires Location(f)
    requires |flat| == NZ * NF
    requires i < NZ && j < NF
    ensures i + NZ * j < |flat|
    ensures var shape := FieldShape(f, nt);
      && Reshape(flat, shape).Some? && HasShape(Reshape(flat, shape).value, shape)
      && InBounds(shape, [i, j])
      && At(Reshape(flat, shape).value, shape, [i, j]) == flat[i + NZ * j]
  {
    var shape := FieldShape(f, nt);
    assert shape == [NZ, NF];
    Rank2(shape, [i, j]);
    ReshapeAt(flat, shape, [i, j]);
  }

  /** A species field of nt time steps reshapes to its field shape
      (nz, nf, ni, nt), and its element (i, j, k, t) is value
      i + nz*(j + nf*(k + ni*t)). */
  lemma SpeciesFieldAt<T>(f: Field, nt: nat, flat: seq<T>, i: nat, j: nat, k: nat, t: nat)
    requires PerSpecies(f)
    requires |flat| == NZ * NF * NI * nt
    requires i < NZ && j < NF && k < NI && t < nt
    ensures i + NZ * (j + NF * (k + NI * t)) < |flat|
    ensures var shape := FieldShape(f, nt);
      && Reshape(flat, shape).Some? && HasShape(Reshape(flat, shape).value, shape)
      && InBounds(shape, [i, j, k, t])
      && At(Reshape(flat, shape).value, shape, [i, j, k, t]) == flat[i + NZ * (j + NF * (k + NI * t))]
  {
    var shape := FieldShape(f, nt);
    assert shape == [NZ, NF, NI, nt];
    Rank4(shape, [i, j, k, t]);
    ReshapeAt(flat, shape, [i, j, k, t]);
  }

  /** A single-species field (te, u4) of nt time steps reshapes to its field
      shape (nz, nf, nt), and its element (i, j, t) is value i + nz*(j + nf*t). */
  lemma SingleFieldAt<T>(f: Field, nt: nat, flat: seq<T>, i: nat, j: nat, t: nat)
    requires !Location(f) && !PerSpecies(f)
    requires |flat| == NZ * NF * nt
    requires i < NZ && j < NF && t < nt
    ensures i + NZ * (j + NF * t) < |flat|
    ensures var shape := FieldShape(f, nt);
      && Reshape(flat, shape).Some? && HasShape(Reshape(flat, shape).value, shape)
      && InBounds(shape, [i, j, t])
      && At(Reshape(flat, shape).value, shape, [i, j, t]) == flat[i + NZ * (j + NF * t)]
  {
    var shape := FieldShape(f, nt);
    assert shape == [NZ, NF, nt];
    Rank3(shape, [i, j, t]);
    ReshapeAt(flat, shape, [i, j, t]);
  }

  /** The number of Fourier terms return_fourier sums, int((len - 1) / 2)
      with Python's truncation toward zero (so 0 for an empty list). */
  function FourierTerms(len: nat): (n: nat)
    ensures len >= 1 ==> 2 * n <= len - 1 < 2 * n + 2
    ensures len <= 2 ==> n == 0
  {
    if len == 0 then 0 else (len - 1) / 2
  }

  /** The coefficients return_fourier reads: the constant term and, for each
      term i in 1..NumF, the cosine and sine coefficients 2i-1 and 2i. */
  function FourierIndices(len: nat): (ix: seq<nat>)
    ensures |ix| == 1 + 2 * FourierTerms(len)
  {
    [0] + seq(2 * FourierTerms(len), p requires 0 <= p < 2 * FourierTerms(len) => p + 1)
  }

  /** Every coefficient return_fourier reads exists exactly when the list is
      not empty; an odd-length list is used in full, an even-length one
      leaves its last coefficient unused. */
  lemma FourierIndicesInRange(len: nat)
    ensures (forall p :: 0 <= p < |FourierIndices(len)| ==> FourierIndices(len)[p] < len) <==> len >= 1
    ensures len >= 1 ==> (|FourierIndices(len)| == len <==> len % 2 == 1)
  {
    var ix := FourierIndices(len);
    if len == 0 {
      assert ix[0] == 0;
    }
  }
}
