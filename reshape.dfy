/** Fortran-order reshaping as _load_model uses it
    (sami2py/_core_class.py:262-268, 279-282): `np.reshape(flat, shape,
    order="F")` places flat element `i0 + n0 * (i1 + n1 * (i2 + ...))` at index
    (i0, i1, i2, ...), the first axis varying fastest. */
module ColumnMajor {
  import opened Wrappers

  /** An array's extent along each axis, first axis first. */
  type Shape = seq<nat>

  /** The number of elements of an array of that shape. */
  function Size(shape: Shape): nat {
    if shape == [] then 1 else shape[0] * Size(shape[1..])
  }

  /** idx names an element of an array of that shape. */
  predicate InBounds(shape: Shape, idx: seq<nat>) {
    |idx| == |shape| && forall d :: 0 <= d < |shape| ==> idx[d] < shape[d]
  }

  /** The position in the flat data of the element at idx. */
  function Offset(shape: Shape, idx: seq<nat>): nat
    requires |idx| == |shape|
  {
    if shape == [] then 0 else idx[0] + shape[0] * Offset(shape[1..], idx[1..])
  }

  /** The element index at flat position f: f written in the mixed radix of the
      shape, first axis the least significant digit. */
  function Unravel(shape: Shape, f: nat): (idx: seq<nat>)
    requires f < Size(shape)
    ensures |idx| == |shape|
  {
    if shape == [] then []
    else
      DivBound(f, shape[0], Size(shape[1..]));
      [f % shape[0]] + Unravel(shape[1..], f / shape[0])
  }

  // ---------------------------------------------------------------------------
  // Arithmetic

  lemma MulMono(a: nat, b: nat, c: nat)
    requires b <= c
    ensures a * b <= a * c
  {
    assert a * c == a * b + a * (c - b);
  }

  /** Division by a positive n recovers the quotient and remainder of r + n * q. */
  lemma DivModOf(n: nat, q: nat, r: nat)
    requires r < n
    ensures (r + n * q) / n == q && (r + n * q) % n == r
  {
    var f := r + n * q;
    var k := f / n - q;
    assert n * k == r - f % n;
    if k >= 1 {
      MulMono(n, 1, k);
      assert false;
    }
  }

  lemma DivBound(f: nat, a: nat, b: nat)
    requires f < a * b
    ensures a > 0 && f / a < b
  {
    assert a != 0;
    if f / a >= b {
      MulMono(a, b, f / a);
    }
  }

  // ---------------------------------------------------------------------------
  // Offset and Unravel are inverse bijections between the in-bounds indices
  // and [0, Size(shape))

  lemma {:induction false} OffsetBound(shape: Shape, idx: seq<nat>)
    requires InBounds(shape, idx)
    ensures Offset(shape, idx) < Size(shape)
    decreases |shape|
  {
    if shape != [] {
      var rest, sub := shape[1..], idx[1..];
      assert InBounds(rest, sub) by {
        forall d | 0 <= d < |rest| ensures sub[d] < rest[d] {
          assert sub[d] == idx[d + 1] && rest[d] == shape[d + 1];
        }
      }
      OffsetBound(rest, sub);
      MulMono(shape[0], Offset(rest, sub), Size(rest) - 1);
      assert shape[0] * (Size(rest) - 1) == Size(shape) - shape[0];
    }
  }

  lemma {:induction false} UnravelOffset(shape: Shape, idx: seq<nat>)
    requires InBounds(shape, idx)
    ensures Offset(shape, idx) < Size(shape)
    ensures Unravel(shape, Offset(shape, idx)) == idx
    decreases |shape|
  {
    OffsetBound(shape, idx);
    if shape != [] {
      var rest, sub := shape[1..], idx[1..];
      assert InBounds(rest, sub) by {
        forall d | 0 <= d < |rest| ensures sub[d] < rest[d] {
          assert sub[d] == idx[d + 1] && rest[d] == shape[d + 1];
        }
      }
      var f := Offset(shape, idx);
      DivModOf(shape[0], Offset(rest, sub), idx[0]);
      UnravelOffset(rest, sub);
      assert idx == [idx[0]] + sub;
    }
  }

  lemma {:induction false} OffsetUnravel(shape: Shape, f: nat)
    requires f < Size(shape)
    ensures InBounds(shape, Unravel(shape, f))
    ensures Offset(shape, Unravel(shape, f)) == f
    decreases |shape|
  {
    if shape != [] {
      var rest := shape[1..];
      DivBound(f, shape[0], Size(rest));
      OffsetUnravel(rest, f / shape[0]);
      var idx := Unravel(shape, f);
      assert idx[1..] == Unravel(rest, f / shape[0]);
      forall d | 0 <= d < |shape| ensures idx[d] < shape[d] {
        if d > 0 {
          assert idx[d] == idx[1..][d - 1] && shape[d] == rest[d - 1];
        }
      }
      assert f == shape[0] * (f / shape[0]) + f % shape[0];
    }
  }

  // ---------------------------------------------------------------------------
  // Arrays

  /** An n-dimensional array: a single element, or an axis of sub-arrays. */
  datatype Tensor<T> = Cell(value: T) | Axis(items: seq<Tensor<T>>)

  /** The array has that shape: one nesting level per axis, each level as
      long as its axis. */
  predicate HasShape<T>(t: Tensor<T>, shape: Shape)
    decreases t
  {
    if shape == [] then t.Cell?
    else t.Axis? && |t.items| == shape[0] && forall i :: 0 <= i < |t.items| ==> HasShape(t.items[i], shape[1..])
  }

  /** The element at idx, `t[i0, i1, ...]`. */
  function At<T>(t: Tensor<T>, shape: Shape, idx: seq<nat>): T
    requires HasShape(t, shape) && InBounds(shape, idx)
    decreases |shape|
  {
    if shape == [] then t.value
    else
      assert InBounds(shape[1..], idx[1..]) by {
        forall d | 0 <= d < |shape| - 1 ensures idx[1..][d] < shape[1..][d] {
          assert idx[1..][d] == idx[d + 1];
        }
      }
      At(t.items[idx[0]], shape[1..], idx[1..])
  }

  /** The first |prefix| axes fixed at prefix. */
  predicate PrefixInBounds(shape: Shape, prefix: seq<nat>) {
    |prefix| <= |shape| && forall d :: 0 <= d < |prefix| ==> prefix[d] < shape[d]
  }

  /** The sub-array of the reshaped flat data whose first axes are fixed at
      prefix. */
  function Tabulate<T>(flat: seq<T>, shape: Shape, prefix: seq<nat>): Tensor<T>
    requires |flat| == Size(shape) && PrefixInBounds(shape, prefix)
    decreases |shape| - |prefix|
  {
    if |prefix| == |shape| then
      OffsetBound(shape, prefix);
      Cell(flat[Offset(shape, prefix)])
    else
      Axis(seq(shape[|prefix|], i requires 0 <= i < shape[|prefix|] => Tabulate(flat, shape, prefix + [i])))
  }

  /** `np.reshape(flat, shape, order="F")`; None where numpy raises because
      the sizes differ. */
  function Reshape<T>(flat: seq<T>, shape: Shape): Option<Tensor<T>> {
    if |flat| == Size(shape) then Some(Tabulate(flat, shape, [])) else None
  }

  /** `t.flatten(order="F")`: the elements with the first axis varying
      fastest. */
  function Flatten<T>(t: Tensor<T>, shape: Shape): (flat: seq<T>)
    requires HasShape(t, shape)
    ensures |flat| == Size(shape)
  {
    seq(Size(shape), f requires 0 <= f < Size(shape) => OffsetUnravel(shape, f); At(t, shape, Unravel(shape, f)))
  }

  // ---------------------------------------------------------------------------
  // Reshape properties

  /** The sub-array at prefix has the shape of the remaining axes. */
  lemma {:induction false} TabulateShape<T>(flat: seq<T>, shape: Shape, prefix: seq<nat>)
    requires |flat| == Size(shape) && PrefixInBounds(shape, prefix)
    ensures HasShape(Tabulate(flat, shape, prefix), shape[|prefix|..])
    decreases |shape| - |prefix|
  {
    if |prefix| < |shape| {
      var t := Tabulate(flat, shape, prefix);
      assert shape[|prefix|..][1..] == shape[|prefix| + 1..];
      forall i | 0 <= i < |t.items| ensures HasShape(t.items[i], shape[|prefix| + 1..]) {
        TabulateShape(flat, shape, prefix + [i]);
      }
    }
  }

  /** Walking the rest of the index down the sub-array at prefix reaches the
      flat element at the offset of the whole index. */
  lemma {:induction false} TabulateAt<T>(flat: seq<T>, shape: Shape, prefix: seq<nat>, idx: seq<nat>)
    requires |flat| == Size(shape) && InBounds(shape, idx)
    requires |prefix| <= |idx| && prefix == idx[..|prefix|]
    ensures PrefixInBounds(shape, prefix)
    ensures HasShape(Tabulate(flat, shape, prefix), shape[|prefix|..])
    ensures InBounds(shape[|prefix|..], idx[|prefix|..]) && Offset(shape, idx) < |flat|
    ensures At(Tabulate(flat, shape, prefix), shape[|prefix|..], idx[|prefix|..]) == flat[Offset(shape, idx)]
    decreases |shape| - |prefix|
  {
    assert PrefixInBounds(shape, prefix) by {
      forall d | 0 <= d < |prefix| ensures prefix[d] < shape[d] {
        assert prefix[d] == idx[d];
      }
    }
    TabulateShape(flat, shape, prefix);
    OffsetBound(shape, idx);
    var n := |prefix|;
    if n == |shape| {
      assert prefix == idx;
    } else {
      var i := idx[n];
      assert prefix + [i] == idx[..n + 1];
      TabulateAt(flat, shape, prefix + [i], idx);
      TabulateShape(flat, shape, prefix + [i]);
      assert shape[n..][1..] == shape[n + 1..];
      assert idx[n..][1..] == idx[n + 1..];
      assert idx[n..][0] == i;
    }
  }

  /** Reshaping succeeds exactly when the sizes agree, gives an array of the
      requested shape, and the element at idx is the flat element at its
      column-major offset. */
  lemma ReshapeSpec<T>(flat: seq<T>, shape: Shape)
    ensures Reshape(flat, shape).Some? <==> |flat| == Size(shape)
    ensures Reshape(flat, shape).Some? ==> HasShape(Reshape(flat, shape).value, shape)
  {
    if |flat| == Size(shape) {
      TabulateShape(flat, shape, []);
      assert shape[0..] == shape;
    }
  }

  lemma ReshapeAt<T>(flat: seq<T>, shape: Shape, idx: seq<nat>)
    requires |flat| == Size(shape) && InBounds(shape, idx)
    ensures Reshape(flat, shape).Some? && HasShape(Reshape(flat, shape).value, shape)
    ensures Offset(shape, idx) < |flat|
    ensures At(Reshape(flat, shape).value, shape, idx) == flat[Offset(shape, idx)]
  {
    ReshapeSpec(flat, shape);
    OffsetBound(shape, idx);
    TabulateAt(flat, shape, [], idx);
    assert shape[0..] == shape && idx[0..] == idx;
  }

  /** Reshaping and then flattening in the same order gives the data back. */
  lemma FlattenReshape<T>(flat: seq<T>, shape: Shape)
    requires |flat| == Size(shape)
    ensures Reshape(flat, shape).Some? && HasShape(Reshape(flat, shape).value, shape)
    ensures Flatten(Reshape(flat, shape).value, shape) == flat
  {
    ReshapeSpec(flat, shape);
    var back := Flatten(Reshape(flat, shape).value, shape);
    forall f | 0 <= f < |flat| ensures back[f] == flat[f] {
      OffsetUnravel(shape, f);
      ReshapeAt(flat, shape, Unravel(shape, f));
    }
  }

  /** Flattening and then reshaping gives every element back at its index. */
  lemma ReshapeFlatten<T>(t: Tensor<T>, shape: Shape, idx: seq<nat>)
    requires HasShape(t, shape) && InBounds(shape, idx)
    ensures Reshape(Flatten(t, shape), shape).Some? && HasShape(Reshape(Flatten(t, shape), shape).value, shape)
    ensures At(Reshape(Flatten(t, shape), shape).value, shape, idx) == At(t, shape, idx)
  {
    var flat := Flatten(t, shape);
    ReshapeSpec(flat, shape);
    ReshapeAt(flat, shape, idx);
    OffsetBound(shape, idx);
    UnravelOffset(shape, idx);
  }

  /** Prepending an axis multiplies the size by its extent and adds the new
      index to the extent times the offset in the remaining axes. */
  lemma AxisCons(n: nat, rest: Shape, i: nat, sub: seq<nat>)
    requires |sub| == |rest|
    ensures Size([n] + rest) == n * Size(rest)
    ensures Offset([n] + rest, [i] + sub) == i + n * Offset(rest, sub)
    ensures InBounds([n] + rest, [i] + sub) <==> i < n && InBounds(rest, sub)
  {
    assert ([n] + rest)[1..] == rest && ([i] + sub)[1..] == sub;
    if i < n && InBounds(rest, sub) {
      forall d | 0 <= d < |rest| + 1 ensures ([i] + sub)[d] < ([n] + rest)[d] {
        if d > 0 {
          assert ([i] + sub)[d] == sub[d - 1];
        }
      }
    }
    if InBounds([n] + rest, [i] + sub) {
      forall d | 0 <= d < |rest| ensures sub[d] < rest[d] {
        assert ([i] + sub)[d + 1] == sub[d];
      }
    }
  }

  /** Size, offset and bounds of a two-axis array written out. */
  lemma Rank2(shape: Shape, idx: seq<nat>)
    requires |shape| == 2 && |idx| == 2
    ensures Size(shape) == shape[0] * shape[1]
    ensures Offset(shape, idx) == idx[0] + shape[0] * idx[1]
    ensures InBounds(shape, idx) <==> idx[0] < shape[0] && idx[1] < shape[1]
  {
    AxisCons(shape[1], [], idx[1], []);
    AxisCons(shape[0], [shape[1]], idx[0], [idx[1]]);
    assert [shape[0]] + [shape[1]] == shape && [idx[0]] + [idx[1]] == idx;
    assert [shape[1]] + [] == [shape[1]] && [idx[1]] + [] == [idx[1]];
  }

  /** Size, offset and bounds of a three-axis array written out. */
  lemma Rank3(shape: Shape, idx: seq<nat>)
    requires |shape| == 3 && |idx| == 3
    ensures Size(shape) == shape[0] * (shape[1] * shape[2])
    ensures Offset(shape, idx) == idx[0] + shape[0] * (idx[1] + shape[1] * idx[2])
    ensures InBounds(shape, idx) <==> idx[0] < shape[0] && idx[1] < shape[1] && idx[2] < shape[2]
  {
    Rank2(shape[1..], idx[1..]);
    AxisCons(shape[0], shape[1..], idx[0], idx[1..]);
    assert [shape[0]] + shape[1..] == shape && [idx[0]] + idx[1..] == idx;
  }

  /** Size, offset and bounds of a four-axis array written out. */
  lemma Rank4(shape: Shape, idx: seq<nat>)
    requires |shape| == 4 && |idx| == 4
    ensures Size(shape) == shape[0] * (shape[1] * (shape[2] * shape[3]))
    ensures Offset(shape, idx) == idx[0] + shape[0] * (idx[1] + shape[1] * (idx[2] + shape[2] * idx[3]))
    ensures InBounds(shape, idx) <==> idx[0] < shape[0] && idx[1] < shape[1] && idx[2] < shape[2] && idx[3] < shape[3]
  {
    Rank3(shape[1..], idx[1..]);
    AxisCons(shape[0], shape[1..], idx[0], idx[1..]);
    assert [shape[0]] + shape[1..] == shape && [idx[0]] + idx[1..] == idx;
  }
}
