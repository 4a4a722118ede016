/**
 * The transpose prototype (op_prototype/transpose.cpp): for a shape and a
 * permutation it computes row-major strides, the inverse permutation, the
 * permuted shape with its strides, and a one-loop destination formula
 * `Σ_i id / stride_i % shape_i * newStride_{inverse_i}` that the generated
 * `permute` body uses. The model keeps the countdown loops over arrays and
 * proves that the formula is the row-major position of the permuted
 * coordinates, hence a bijection of [0, length).
 */
module Transpose {
  import opened MixedRadix

  // ---------------------------------------------------------------------
  // Permutations

  /** p maps [0, |p|) onto itself one to one. */
  predicate IsPermutation(p: seq<nat>)
  {
    (forall i :: 0 <= i < |p| ==> p[i] < |p|) &&
    (forall i, j :: 0 <= i < j < |p| ==> p[i] != p[j]) &&
    (forall k: nat :: k < |p| ==> k in p)
  }

  /** Position of k in p. */
  function IndexOf(p: seq<nat>, k: nat): (r: nat)
    requires k in p
    ensures r < |p| && p[r] == k
  {
    if p[0] == k then 0 else 1 + IndexOf(p[1..], k)
  }

  /** The permutation undoing p: `index_goto[perm[i]] = i`. */
  function Inverse(p: seq<nat>): (q: seq<nat>)
    requires IsPermutation(p)
    ensures |q| == |p|
  {
    seq(|p|, k requires 0 <= k < |p| => IndexOf(p, k))
  }

  /** The sequence whose i-th element is v[p[i]] (`new_shape[i] = shape[perm[i]]`). */
  function Apply(v: seq<nat>, p: seq<nat>): (w: seq<nat>)
    requires forall i :: 0 <= i < |p| ==> p[i] < |v|
    ensures |w| == |p|
  {
    seq(|p|, i requires 0 <= i < |p| => v[p[i]])
  }

  lemma IndexOfUnique(p: seq<nat>, i: nat)
    requires IsPermutation(p) && i < |p|
    ensures IndexOf(p, p[i]) == i
  {
    var r := IndexOf(p, p[i]);
    assert p[r] == p[i];
  }

  /** The inverse is a permutation and undoes p on both sides. */
  lemma InverseIsPermutation(p: seq<nat>)
    requires IsPermutation(p)
    ensures IsPermutation(Inverse(p))
    ensures forall i :: 0 <= i < |p| ==> Inverse(p)[p[i]] == i
    ensures forall k :: 0 <= k < |p| ==> p[Inverse(p)[k]] == k
  {
    var q := Inverse(p);
    forall i | 0 <= i < |p| ensures q[p[i]] == i {
      IndexOfUnique(p, i);
    }
    forall k: nat | k < |p| ensures k in q {
      assert q[p[k]] == k;
    }
  }

  /** Dropping the position that holds the largest value leaves a permutation. */
  lemma RemoveLargest(p: seq<nat>, j: nat)
    requires IsPermutation(p) && j < |p| && p[j] == |p| - 1
    ensures IsPermutation(p[..j] + p[j + 1..])
  {
    var n := |p|;
    var q := p[..j] + p[j + 1..];
    assert forall i :: 0 <= i < |q| ==> q[i] == if i < j then p[i] else p[i + 1];
    forall i | 0 <= i < |q| ensures q[i] < |q| {
      var i' := if i < j then i else i + 1;
      if i' < j { assert p[i'] != p[j]; } else { assert p[j] != p[i']; }
    }
    forall i, i' | 0 <= i < i' < |q| ensures q[i] != q[i'] {
      var a := if i < j then i else i + 1;
      var b := if i' < j then i' else i' + 1;
      assert a < b;
    }
    forall k: nat | k < |q| ensures k in q {
      assert k in p;
      var i := IndexOf(p, k);
      if i < j { assert q[i] == k; } else { assert i != j; assert q[i - 1] == k; }
    }
  }

  /** Shape of Apply after the largest target is removed. */
  lemma ApplySplit(v: seq<nat>, p: seq<nat>, j: nat)
    requires IsPermutation(p) && |v| == |p| && j < |p| && p[j] == |p| - 1
    ensures IsPermutation(p[..j] + p[j + 1..])
    ensures Apply(v, p) ==
      Apply(v[..|p| - 1], p[..j] + p[j + 1..])[..j] + [v[|p| - 1]] +
      Apply(v[..|p| - 1], p[..j] + p[j + 1..])[j..]
  {
    RemoveLargest(p, j);
    var q := p[..j] + p[j + 1..];
    var a := Apply(v[..|p| - 1], q);
    var w := a[..j] + [v[|p| - 1]] + a[j..];
    assert |w| == |p|;
    forall i | 0 <= i < |p| ensures Apply(v, p)[i] == w[i] {
      if i < j {
        assert q[i] == p[i];
      } else if i > j {
        assert q[i - 1] == p[i];
      }
    }
  }

  /** Permuting a sequence keeps its sum. */
  lemma {:induction false} SumApply(v: seq<nat>, p: seq<nat>)
    requires IsPermutation(p) && |v| == |p|
    ensures Sum(Apply(v, p)) == Sum(v)
    decreases |p|
  {
    var n := |p|;
    if n > 0 {
      var j := IndexOf(p, n - 1);
      ApplySplit(v, p, j);
      var q := p[..j] + p[j + 1..];
      var v' := v[..n - 1];
      SumApply(v', q);
      var a := Apply(v', q);
      var x := v[n - 1];
      SumAppend(a[..j] + [x], a[j..]);
      SumAppend(a[..j], [x]);
      assert a == a[..j] + a[j..];
      SumAppend(a[..j], a[j..]);
      assert v == v' + [x];
      SumAppend(v', [x]);
      assert Sum([x]) == x by { assert [x][1..] == []; }
    }
  }

  /** Permuting a sequence keeps its product. */
  lemma {:induction false} ProductApply(v: seq<nat>, p: seq<nat>)
    requires IsPermutation(p) && |v| == |p|
    ensures Product(Apply(v, p)) == Product(v)
    decreases |p|
  {
    var n := |p|;
    if n > 0 {
      var j := IndexOf(p, n - 1);
      ApplySplit(v, p, j);
      var q := p[..j] + p[j + 1..];
      var v' := v[..n - 1];
      ProductApply(v', q);
      var a := Apply(v', q);
      var x := v[n - 1];
      ProductAppend(a[..j] + [x], a[j..]);
      ProductAppend(a[..j], [x]);
      assert a == a[..j] + a[j..];
      ProductAppend(a[..j], a[j..]);
      assert v == v' + [x];
      ProductAppend(v', [x]);
      assert Product([x]) == x by { assert [x][1..] == []; }
      MulAssoc(Product(a[..j]), x, Product(a[j..]));
      MulAssoc(Product(a[..j]), Product(a[j..]), x);
    }
  }

  // ---------------------------------------------------------------------
  // The destination formula

  /** One emitted summand `id / divisor % modulus * factor`. */
  datatype Term = Term(divisor: nat, modulus: nat, factor: nat)

  predicate Evaluable(terms: seq<Term>)
  {
    forall i :: 0 <= i < |terms| ==> terms[i].divisor > 0 && terms[i].modulus > 0
  }

  /** Value of the emitted index expression for one loop counter id. */
  function EvalTerms(terms: seq<Term>, id: nat): nat
    requires Evaluable(terms)
  {
    Sum(seq(|terms|, i requires 0 <= i < |terms| =>
      id / terms[i].divisor % terms[i].modulus * terms[i].factor))
  }

  /** The summands the generator emits for shape and perm, one per original axis. */
  function IndexTerms(shape: seq<nat>, perm: seq<nat>): (terms: seq<Term>)
    requires |perm| == |shape| && IsPermutation(perm)
    ensures |terms| == |shape|
  {
    var newShape := Apply(shape, perm);
    var goto := Inverse(perm);
    seq(|shape|, i requires 0 <= i < |shape| =>
      Term(Stride(shape, i), shape[i], Stride(newShape, goto[i])))
  }

  /**
   * Reference meaning of the transpose: the element with coordinates c in
   * `shape` lands at coordinates e, e[j] = c[perm[j]], of the permuted shape.
   */
  function Dest(shape: seq<nat>, perm: seq<nat>, id: nat): nat
    requires |perm| == |shape| && IsPermutation(perm) && Positive(shape)
  {
    Value(Apply(shape, perm), Apply(Coords(shape, id), perm))
  }

  lemma IndexTermsEvaluable(shape: seq<nat>, perm: seq<nat>)
    requires |perm| == |shape| && IsPermutation(perm) && Positive(shape)
    ensures Evaluable(IndexTerms(shape, perm))
  {
    forall i | 0 <= i < |shape| ensures Stride(shape, i) > 0 {
      StridePositive(shape, i);
    }
  }

  /** The emitted formula computes the reference destination, for every counter value. */
  lemma EmittedFormulaIsDest(shape: seq<nat>, perm: seq<nat>, id: nat)
    requires |perm| == |shape| && IsPermutation(perm) && Positive(shape)
    ensures Evaluable(IndexTerms(shape, perm))
    ensures EvalTerms(IndexTerms(shape, perm), id) == Dest(shape, perm, id)
  {
    IndexTermsEvaluable(shape, perm);
    var n := |shape|;
    var terms := IndexTerms(shape, perm);
    var newShape := Apply(shape, perm);
    var c := Coords(shape, id);
    var e := Apply(c, perm);
    var goto := Inverse(perm);
    InverseIsPermutation(perm);
    var w := seq(n, j requires 0 <= j < n => e[j] * Stride(newShape, j));
    SummandsArePermutedWeights(shape, perm, id, w);
    SumApply(w, goto);
    ValueAsSum(newShape, e);
  }

  /** Summand i of the emitted formula is the weight of output axis goto[i]. */
  lemma SummandsArePermutedWeights(shape: seq<nat>, perm: seq<nat>, id: nat, w: seq<nat>)
    requires |perm| == |shape| && IsPermutation(perm) && Positive(shape)
    requires |w| == |shape|
    requires forall j :: 0 <= j < |w| ==>
      w[j] == Apply(Coords(shape, id), perm)[j] * Stride(Apply(shape, perm), j)
    ensures Evaluable(IndexTerms(shape, perm))
    ensures IsPermutation(Inverse(perm)) && |Inverse(perm)| == |w|
    ensures EvalTerms(IndexTerms(shape, perm), id) == Sum(Apply(w, Inverse(perm)))
  {
    IndexTermsEvaluable(shape, perm);
    InverseIsPermutation(perm);
    var n := |shape|;
    var terms := IndexTerms(shape, perm);
    var c := Coords(shape, id);
    var e := Apply(c, perm);
    var goto := Inverse(perm);
    var summands := seq(n, i requires 0 <= i < n =>
      id / terms[i].divisor % terms[i].modulus * terms[i].factor);
    forall i | 0 <= i < n ensures summands[i] == Apply(w, goto)[i] {
      assert perm[goto[i]] == i;
      assert e[goto[i]] == c[i];
    }
    assert summands == Apply(w, goto);
  }

  /** Coordinates after the permutation lie inside the permuted shape. */
  lemma PermutedCoordsInRange(shape: seq<nat>, perm: seq<nat>, id: nat)
    requires |perm| == |shape| && IsPermutation(perm) && Positive(shape)
    ensures InRange(Apply(shape, perm), Apply(Coords(shape, id), perm))
  {
  }

  /** The element at coordinates c lands at the permuted coordinates in the permuted shape. */
  lemma DestOfValue(shape: seq<nat>, perm: seq<nat>, c: seq<nat>)
    requires |perm| == |shape| && IsPermutation(perm) && InRange(shape, c)
    ensures Positive(shape)
    ensures Dest(shape, perm, Value(shape, c)) == Value(Apply(shape, perm), Apply(c, perm))
  {
    CoordsOfValue(shape, c);
  }

  /** The destination of every element stays inside the tensor. */
  lemma DestInRange(shape: seq<nat>, perm: seq<nat>, id: nat)
    requires |perm| == |shape| && IsPermutation(perm) && Positive(shape)
    ensures Dest(shape, perm, id) < Product(shape)
  {
    PermutedCoordsInRange(shape, perm, id);
    ValueBound(Apply(shape, perm), Apply(Coords(shape, id), perm));
    ProductApply(shape, perm);
  }

  /** Undo the permutation of coordinates. */
  lemma UnpermuteCoords(c: seq<nat>, perm: seq<nat>)
    requires |perm| == |c| && IsPermutation(perm)
    ensures forall i :: 0 <= i < |c| ==> Apply(c, perm)[Inverse(perm)[i]] == c[i]
  {
    InverseIsPermutation(perm);
  }

  /** Two elements never share a destination, so every output cell is written at most once. */
  lemma DestInjective(shape: seq<nat>, perm: seq<nat>, id1: nat, id2: nat)
    requires |perm| == |shape| && IsPermutation(perm) && Positive(shape)
    requires id1 < Product(shape) && id2 < Product(shape)
    requires Dest(shape, perm, id1) == Dest(shape, perm, id2)
    ensures id1 == id2
  {
    var newShape := Apply(shape, perm);
    var c1, c2 := Coords(shape, id1), Coords(shape, id2);
    var e1, e2 := Apply(c1, perm), Apply(c2, perm);
    PermutedCoordsInRange(shape, perm, id1);
    PermutedCoordsInRange(shape, perm, id2);
    ValueInjective(newShape, e1, e2);
    assert c1 == c2 by {
      UnpermuteCoords(c1, perm);
      UnpermuteCoords(c2, perm);
    }
    ValueOfCoords(shape, id1);
    ValueOfCoords(shape, id2);
  }

  /** Every output cell is the destination of some element. */
  lemma DestSurjective(shape: seq<nat>, perm: seq<nat>, k: nat) returns (id: nat)
    requires |perm| == |shape| && IsPermutation(perm) && Positive(shape)
    requires k < Product(shape)
    ensures id < Product(shape) && Dest(shape, perm, id) == k
  {
    var newShape := Apply(shape, perm);
    InverseIsPermutation(perm);
    var goto := Inverse(perm);
    ProductApply(shape, perm);
    assert Positive(newShape);
    var e := Coords(newShape, k);
    var c := Apply(e, goto);
    assert InRange(shape, c) by {
      forall i | 0 <= i < |shape| ensures c[i] < shape[i] {
        assert newShape[goto[i]] == shape[i];
      }
    }
    id := Value(shape, c);
    ValueBound(shape, c);
    CoordsOfValue(shape, c);
    assert Apply(c, perm) == e by {
      forall j | 0 <= j < |perm| ensures Apply(c, perm)[j] == e[j] {
        assert goto[perm[j]] == j;
      }
    }
    ValueOfCoords(newShape, k);
  }

  /** With the identity permutation every element stays where it is. */
  lemma IdentityDest(shape: seq<nat>, id: nat)
    requires Positive(shape) && id < Product(shape)
    ensures IsPermutation(seq(|shape|, i => i))
    ensures Dest(shape, seq(|shape|, i => i), id) == id
  {
    var p: seq<nat> := seq(|shape|, i => i);
    forall k: nat | k < |p| ensures k in p {
      assert p[k] == k;
    }
    assert Apply(shape, p) == shape;
    assert Apply(Coords(shape, id), p) == Coords(shape, id);
    ValueOfCoords(shape, id);
  }

  /**
   * Transposing with perm and then transposing the result with the inverse
   * permutation puts every element back where it started.
   */
  lemma DestRoundTrip(shape: seq<nat>, perm: seq<nat>, id: nat)
    requires |perm| == |shape| && IsPermutation(perm) && Positive(shape) && id < Product(shape)
    ensures IsPermutation(Inverse(perm)) && Positive(Apply(shape, perm))
    ensures Dest(Apply(shape, perm), Inverse(perm), Dest(shape, perm, id)) == id
  {
    var inv := Inverse(perm);
    var c := Coords(shape, id);
    InverseIsPermutation(perm);
    PermutedCoordsInRange(shape, perm, id);
    DestOfValue(Apply(shape, perm), inv, Apply(c, perm));
    UnpermuteCoords(shape, perm);
    UnpermuteCoords(c, perm);
    assert Apply(Apply(shape, perm), inv) == shape;
    assert Apply(Apply(c, perm), inv) == c;
    ValueOfCoords(shape, id);
  }

  // ---------------------------------------------------------------------
  // The generator, as the countdown loops of `main`

  /** `sizeofindex[i] = length; length *= shape[i]` for i from dim-1 down to 0. */
  method RowMajorStrides(shape: seq<nat>) returns (sizeofindex: seq<nat>, length: nat)
    ensures |sizeofindex| == |shape|
    ensures forall i :: 0 <= i < |shape| ==> sizeofindex[i] == Product(shape[i + 1..])
    ensures length == Product(shape)
  {
    var a := new nat[|shape|];
    length := 1;
    var i := |shape|;
    while i > 0
      invariant 0 <= i <= |shape|
      invariant length == Product(shape[i..])
      invariant forall j :: i <= j < |shape| ==> a[j] == Product(shape[j + 1..])
    {
      i := i - 1;
      a[i] := length;
      assert shape[i..][1..] == shape[i + 1..];
      length := length * shape[i];
    }
    assert shape[0..] == shape;
    sizeofindex := a[..];
  }

  /** `index_goto[perm[i]] = i` for every axis i. */
  method InvertPermutation(perm: seq<nat>) returns (indexGoto: seq<nat>)
    requires IsPermutation(perm)
    ensures |indexGoto| == |perm|
    ensures forall i :: 0 <= i < |perm| ==> indexGoto[perm[i]] == i
    ensures forall j :: 0 <= j < |perm| ==> indexGoto[j] < |perm| && perm[indexGoto[j]] == j
    ensures indexGoto == Inverse(perm)
  {
    var a := new nat[|perm|];
    for i := 0 to |perm|
      invariant forall k :: 0 <= k < i ==> a[perm[k]] == k
    {
      a[perm[i]] := i;
    }
    indexGoto := a[..];
    InverseIsPermutation(perm);
    forall j | 0 <= j < |perm| ensures indexGoto[j] == Inverse(perm)[j] {
      var i := IndexOf(perm, j);
      assert indexGoto[perm[i]] == i;
    }
  }

  /**
   * `new_shape[i] = shape[perm[i]]; new_sizeofindex[i] = t; t *= new_shape[i]`
   * for i from dim-1 down to 0.
   */
  method PermuteShape(shape: seq<nat>, perm: seq<nat>) returns (newShape: seq<nat>, newStrides: seq<nat>, t: nat)
    requires |perm| == |shape| && IsPermutation(perm)
    ensures newShape == Apply(shape, perm)
    ensures |newStrides| == |shape|
    ensures forall i :: 0 <= i < |shape| ==> newStrides[i] == Stride(newShape, i)
    ensures t == Product(newShape) && t == Product(shape)
  {
    ghost var target := Apply(shape, perm);
    var ns := new nat[|shape|];
    var st := new nat[|shape|];
    t := 1;
    var i := |shape|;
    while i > 0
      invariant 0 <= i <= |shape|
      invariant t == Product(target[i..])
      invariant forall j :: i <= j < |shape| ==> ns[j] == target[j] && st[j] == Stride(target, j)
    {
      i := i - 1;
      ns[i] := shape[perm[i]];
      st[i] := t;
      assert target[i..][1..] == target[i + 1..];
      t := t * ns[i];
    }
    assert target[0..] == target;
    newShape := ns[..];
    newStrides := st[..];
    ProductApply(shape, perm);
  }

  /** The emission loop: one term `id / sizeofindex[i] % shape[i] * new_sizeofindex[index_goto[i]]` per axis. */
  method EmitIndexTerms(sizeofindex: seq<nat>, shape: seq<nat>, newStrides: seq<nat>, indexGoto: seq<nat>)
    returns (terms: seq<Term>)
    requires |sizeofindex| == |shape| == |newStrides| == |indexGoto|
    requires forall i :: 0 <= i < |indexGoto| ==> indexGoto[i] < |newStrides|
    ensures |terms| == |shape|
    ensures forall i :: 0 <= i < |shape| ==>
      terms[i] == Term(sizeofindex[i], shape[i], newStrides[indexGoto[i]])
  {
    terms := [];
    for i := 0 to |shape|
      invariant |terms| == i
      invariant forall k :: 0 <= k < i ==> terms[k] == Term(sizeofindex[k], shape[k], newStrides[indexGoto[k]])
    {
      terms := terms + [Term(sizeofindex[i], shape[i], newStrides[indexGoto[i]])];
    }
  }

  /**
   * The whole generator of `main`: the loop bound `length` and the summands
   * of the emitted index expression. For a shape without zero extents the
   * emitted expression maps [0, length) into [0, length) one to one.
   */
  method GeneratePermute(shape: seq<nat>, perm: seq<nat>) returns (length: nat, terms: seq<Term>)
    requires |perm| == |shape| && IsPermutation(perm)
    ensures length == Product(shape)
    ensures terms == IndexTerms(shape, perm)
    ensures Positive(shape) ==>
              Evaluable(terms) && forall id :: 0 <= id < length ==> EvalTerms(terms, id) < length
  {
    var sizeofindex;
    sizeofindex, length := RowMajorStrides(shape);
    var indexGoto := InvertPermutation(perm);
    var newShape, newStrides, t := PermuteShape(shape, perm);
    terms := EmitIndexTerms(sizeofindex, shape, newStrides, indexGoto);
    if Positive(shape) {
      EmittedFormulaInRange(shape, perm);
    }
  }

  /** The emitted expression maps [0, length) into [0, length). */
  lemma EmittedFormulaInRange(shape: seq<nat>, perm: seq<nat>)
    requires |perm| == |shape| && IsPermutation(perm) && Positive(shape)
    ensures Evaluable(IndexTerms(shape, perm))
    ensures forall id :: 0 <= id < Product(shape) ==> EvalTerms(IndexTerms(shape, perm), id) < Product(shape)
  {
    IndexTermsEvaluable(shape, perm);
    forall id | 0 <= id < Product(shape) ensures EvalTerms(IndexTerms(shape, perm), id) < Product(shape) {
      EmittedFormulaIsDest(shape, perm, id);
      DestInRange(shape, perm, id);
    }
  }

  /** The emitted expression is one to one on [0, length). */
  lemma EmittedFormulaInjective(shape: seq<nat>, perm: seq<nat>, id1: nat, id2: nat)
    requires |perm| == |shape| && IsPermutation(perm) && Positive(shape)
    requires id1 < Product(shape) && id2 < Product(shape)
    requires Evaluable(IndexTerms(shape, perm))
    requires EvalTerms(IndexTerms(shape, perm), id1) == EvalTerms(IndexTerms(shape, perm), id2)
    ensures id1 == id2
  {
    EmittedFormulaIsDest(shape, perm, id1);
    EmittedFormulaIsDest(shape, perm, id2);
    DestInjective(shape, perm, id1, id2);
  }

  // ---------------------------------------------------------------------
  // The hard-coded instance: shape [1,2,3,4], perm [3,2,1,0]

  const PrototypeShape: seq<nat> := [1, 2, 3, 4]
  const PrototypePerm: seq<nat> := [3, 2, 1, 0]

  /** The index expression written into the hard-coded `permute`. */
  function HardCodedDest(id: nat): nat
  {
    id / 24 % 1 * 1 + id / 12 % 2 * 1 + id / 4 % 3 * 2 + id / 1 % 4 * 6
  }

  lemma PrototypePermIsPermutation()
    ensures IsPermutation(PrototypePerm)
  {
    var p := PrototypePerm;
    forall k: nat | k < 4 ensures k in p {
      assert p[3 - k] == k;
    }
  }

  /** The generator's summands for the prototype's shape and permutation. */
  lemma PrototypeCoefficients()
    ensures IsPermutation(PrototypePerm)
    ensures IndexTerms(PrototypeShape, PrototypePerm) ==
      [Term(24, 1, 1), Term(12, 2, 1), Term(4, 3, 2), Term(1, 4, 6)]
  {
    PrototypePermIsPermutation();
    var s, p := PrototypeShape, PrototypePerm;
    var ns := Apply(s, p);
    assert ns == [4, 3, 2, 1];
    var g := Inverse(p);
    InverseIsPermutation(p);
    assert g[3] == 0 && g[2] == 1 && g[1] == 2 && g[0] == 3 by {
      assert g[p[0]] == 0 && g[p[1]] == 1 && g[p[2]] == 2 && g[p[3]] == 3;
    }
    assert s[1..] == [2, 3, 4] && s[2..] == [3, 4] && s[3..] == [4] && s[4..] == [];
    assert ns[1..] == [3, 2, 1] && ns[2..] == [2, 1] && ns[3..] == [1] && ns[4..] == [];
    assert Product([4]) == 4 && Product([1]) == 1;
    assert Product([3, 4]) == 12 && Product([2, 1]) == 2;
  }

  /** The emitted expression of four summands, written out. */
  lemma EvalFourTerms(terms: seq<Term>, id: nat)
    requires |terms| == 4 && Evaluable(terms)
    ensures EvalTerms(terms, id) ==
      id / terms[0].divisor % terms[0].modulus * terms[0].factor +
      id / terms[1].divisor % terms[1].modulus * terms[1].factor +
      id / terms[2].divisor % terms[2].modulus * terms[2].factor +
      id / terms[3].divisor % terms[3].modulus * terms[3].factor
  {
    var summands := seq(|terms|, i requires 0 <= i < |terms| =>
      id / terms[i].divisor % terms[i].modulus * terms[i].factor);
    assert EvalTerms(terms, id) == Sum(summands);
    assert summands == [summands[0], summands[1], summands[2], summands[3]];
    SumOfFour(summands[0], summands[1], summands[2], summands[3]);
  }

  lemma SumOfFour(x0: nat, x1: nat, x2: nat, x3: nat)
    ensures Sum([x0, x1, x2, x3]) == x0 + x1 + x2 + x3
  {
    assert Sum([x3]) == x3 by { assert [x3][1..] == []; }
    assert Sum([x2, x3]) == x2 + x3 by { assert [x2, x3][1..] == [x3]; }
    assert Sum([x1, x2, x3]) == x1 + x2 + x3 by { assert [x1, x2, x3][1..] == [x2, x3]; }
    assert [x0, x1, x2, x3][1..] == [x1, x2, x3];
  }

  /** The hard-coded body evaluates the generator's formula for the prototype. */
  lemma HardCodedMatchesGenerator(id: nat)
    ensures IsPermutation(PrototypePerm) && Evaluable(IndexTerms(PrototypeShape, PrototypePerm))
    ensures HardCodedDest(id) == EvalTerms(IndexTerms(PrototypeShape, PrototypePerm), id)
  {
    PrototypeCoefficients();
    EvalFourTerms(IndexTerms(PrototypeShape, PrototypePerm), id);
  }

  /** The hard-coded destination is a bijection of [0, 24). */
  lemma HardCodedBijective()
    ensures forall id :: 0 <= id < 24 ==> HardCodedDest(id) < 24
    ensures forall id1, id2 :: 0 <= id1 < 24 && 0 <= id2 < 24 && HardCodedDest(id1) == HardCodedDest(id2) ==> id1 == id2
  {
    PrototypeCoefficients();
    var s, p := PrototypeShape, PrototypePerm;
    assert Product(s) == 24 by { assert s[1..] == [2, 3, 4] && s[2..] == [3, 4] && s[3..] == [4]; }
    forall id | 0 <= id < 24 ensures HardCodedDest(id) < 24 {
      HardCodedMatchesGenerator(id);
      EmittedFormulaIsDest(s, p, id);
      DestInRange(s, p, id);
    }
    forall id1, id2 | 0 <= id1 < 24 && 0 <= id2 < 24 && HardCodedDest(id1) == HardCodedDest(id2)
      ensures id1 == id2
    {
      HardCodedMatchesGenerator(id1);
      HardCodedMatchesGenerator(id2);
      EmittedFormulaInjective(s, p, id1, id2);
    }
  }

  /** `permute`: `output[dest(id)] = input[id]` for every id below 24. */
  method Permute(input: array<real>, output: array<real>)
    requires input.Length == 24 && output.Length == 24 && input != output
    modifies output
    ensures forall id :: 0 <= id < 24 ==> output[HardCodedDest(id)] == input[id]
  {
    HardCodedBijective();
    for id := 0 to 24
      invariant forall k :: 0 <= k < id ==> output[HardCodedDest(k)] == input[k]
    {
      output[HardCodedDest(id)] := input[id];
    }
  }
}
