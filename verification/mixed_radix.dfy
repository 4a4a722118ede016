/**
 * Row-major index arithmetic shared by the transpose generator and the LSTM
 * initializer canonicalisation: element counts, strides, the linear position
 * of a multi-index, and the coordinates `id / stride % extent` of a linear
 * position. The central facts are that position and coordinates are inverse
 * to each other inside a shape, so the position map is a bijection between
 * in-range multi-indices and [0, Product(shape)).
 */
module MixedRadix {

  /** Number of elements of a tensor of shape s. */
  function Product(s: seq<nat>): nat
  {
    if |s| == 0 then 1 else s[0] * Product(s[1..])
  }

  function Sum(s: seq<nat>): nat
  {
    if |s| == 0 then 0 else s[0] + Sum(s[1..])
  }

  /** Every extent is non-zero (the coordinate formula divides by them). */
  predicate Positive(s: seq<nat>)
  {
    forall i :: 0 <= i < |s| ==> s[i] > 0
  }

  /** Row-major stride of axis i: the product of the extents after it. */
  function Stride(s: seq<nat>, i: nat): nat
    requires i < |s|
  {
    Product(s[i + 1..])
  }

  /** A multi-index inside shape s. */
  predicate InRange(s: seq<nat>, d: seq<nat>)
  {
    |d| == |s| && forall i :: 0 <= i < |s| ==> d[i] < s[i]
  }

  /** Linear row-major position of the multi-index d in shape s. */
  function Value(s: seq<nat>, d: seq<nat>): nat
    requires |d| == |s|
  {
    if |s| == 0 then 0 else d[0] * Product(s[1..]) + Value(s[1..], d[1..])
  }

  /** Coordinate on axis i of the linear position id: `id / stride % extent`. */
  function Coord(s: seq<nat>, id: nat, i: nat): (c: nat)
    requires i < |s| && Positive(s)
    ensures c < s[i]
  {
    StridePositive(s, i);
    id / Stride(s, i) % s[i]
  }

  /** All coordinates of id, one per axis. */
  function Coords(s: seq<nat>, id: nat): (d: seq<nat>)
    requires Positive(s)
    ensures InRange(s, d)
  {
    seq(|s|, i requires 0 <= i < |s| => Coord(s, id, i))
  }

  // ---------------------------------------------------------------------
  // Arithmetic building blocks

  lemma MulPositive(a: nat, b: nat)
    ensures a * b > 0 <==> a > 0 && b > 0
  {
    if a > 0 && b > 0 {
      assert a * b >= b by { MulAtLeast(a, b); }
    }
  }

  lemma MulAtLeast(k: nat, n: nat)
    requires k >= 1
    ensures k * n >= n
  {
    assert k * n == (k - 1) * n + n;
  }

  lemma MulMonotone(a: nat, b: nat, n: nat)
    requires a <= b
    ensures a * n <= b * n
  {
    assert b * n == a * n + (b - a) * n;
  }

  /** Block i of width w ends inside n blocks when i < n. */
  lemma BlockFits(i: nat, n: nat, w: nat)
    requires i < n
    ensures i * w + w <= n * w
  {
    MulMonotone(i + 1, n, w);
    assert (i + 1) * w == i * w + w;
  }

  /** Euclidean division of q * n + r by n when r < n. */
  lemma DivModOfSum(q: nat, n: nat, r: nat)
    requires r < n
    ensures (q * n + r) / n == q && (q * n + r) % n == r
  {
    var x := q * n + r;
    var q', r' := x / n, x % n;
    assert x == q' * n + r';
    if q' < q {
      MulMonotone(q' + 1, q, n);
    } else if q' > q {
      MulMonotone(q + 1, q', n);
    }
  }

  lemma DivAddMultiple(a: nat, m: nat, b: nat)
    requires m > 0
    ensures (a * m + b) / m == a + b / m
    ensures (a * m + b) % m == b % m
  {
    var q, r := b / m, b % m;
    assert a * m + b == (a + q) * m + r;
    DivModOfSum(a + q, m, r);
  }

  // ---------------------------------------------------------------------
  // Products

  lemma {:induction false} PositiveTail(s: seq<nat>)
    requires |s| > 0
    ensures Positive(s) <==> s[0] > 0 && Positive(s[1..])
  {
    if s[0] > 0 && Positive(s[1..]) {
      forall i | 0 <= i < |s| ensures s[i] > 0 {
        if i > 0 { assert s[i] == s[1..][i - 1]; }
      }
    }
  }

  lemma {:induction false} ProductPositive(s: seq<nat>)
    ensures Product(s) > 0 <==> Positive(s)
  {
    if |s| > 0 {
      ProductPositive(s[1..]);
      PositiveTail(s);
      MulPositive(s[0], Product(s[1..]));
    }
  }

  lemma StridePositive(s: seq<nat>, i: nat)
    requires i < |s| && Positive(s)
    ensures Stride(s, i) > 0
  {
    var t := s[i + 1..];
    assert Positive(t) by {
      forall j | 0 <= j < |t| ensures t[j] > 0 { assert t[j] == s[i + 1 + j]; }
    }
    ProductPositive(t);
  }

  lemma {:induction false} ProductAppend(a: seq<nat>, b: seq<nat>)
    ensures Product(a + b) == Product(a) * Product(b)
  {
    if |a| == 0 {
      assert a + b == b;
    } else {
      assert (a + b)[1..] == a[1..] + b;
      ProductAppend(a[1..], b);
    }
  }

  lemma {:induction false} SumAppend(a: seq<nat>, b: seq<nat>)
    ensures Sum(a + b) == Sum(a) + Sum(b)
  {
    if |a| == 0 {
      assert a + b == b;
    } else {
      assert (a + b)[1..] == a[1..] + b;
      SumAppend(a[1..], b);
    }
  }

  lemma Product3(a: nat, b: nat, c: nat)
    ensures Product([a, b, c]) == a * (b * c)
  {
    assert [a, b, c][1..] == [b, c] && [b, c][1..] == [c] && [c][1..] == [];
    assert Product([c]) == c;
    assert Product([b, c]) == b * c;
  }

  lemma Product4(a: nat, b: nat, c: nat, d: nat)
    ensures Product([a, b, c, d]) == a * (b * (c * d))
  {
    assert [a, b, c, d][1..] == [b, c, d];
    Product3(b, c, d);
  }

  // ---------------------------------------------------------------------
  // Positions and coordinates

  /** The position of a multi-index with a leading axis prepended. */
  lemma ValueCons(a: nat, s: seq<nat>, c: nat, d: seq<nat>)
    requires |d| == |s|
    ensures Product([a] + s) == a * Product(s)
    ensures Value([a] + s, [c] + d) == c * Product(s) + Value(s, d)
  {
    assert ([a] + s)[1..] == s;
    assert ([c] + d)[1..] == d;
  }

  /** Position of a 3-index in a 3-D tensor, written out. */
  lemma Value3(a0: nat, a1: nat, a2: nat, c0: nat, c1: nat, c2: nat)
    ensures Value([a0, a1, a2], [c0, c1, c2]) == c0 * (a1 * a2) + c1 * a2 + c2
  {
    ValueCons(a2, [], c2, []);
    assert [a2] + [] == [a2] && [c2] + [] == [c2];
    ValueCons(a1, [a2], c1, [c2]);
    assert [a1] + [a2] == [a1, a2] && [c1] + [c2] == [c1, c2];
    ValueCons(a0, [a1, a2], c0, [c1, c2]);
    assert [a0] + [a1, a2] == [a0, a1, a2] && [c0] + [c1, c2] == [c0, c1, c2];
  }

  /** Position of a 4-index in a 4-D tensor, written out. */
  lemma Value4(a0: nat, a1: nat, a2: nat, a3: nat, c0: nat, c1: nat, c2: nat, c3: nat)
    ensures Value([a0, a1, a2, a3], [c0, c1, c2, c3]) == c0 * (a1 * (a2 * a3)) + c1 * (a2 * a3) + c2 * a3 + c3
  {
    ValueCons(a3, [], c3, []);
    assert [a3] + [] == [a3] && [c3] + [] == [c3];
    ValueCons(a2, [a3], c2, [c3]);
    assert [a2] + [a3] == [a2, a3] && [c2] + [c3] == [c2, c3];
    ValueCons(a1, [a2, a3], c1, [c2, c3]);
    assert [a1] + [a2, a3] == [a1, a2, a3] && [c1] + [c2, c3] == [c1, c2, c3];
    ValueCons(a0, [a1, a2, a3], c0, [c1, c2, c3]);
    assert [a0] + [a1, a2, a3] == [a0, a1, a2, a3] && [c0] + [c1, c2, c3] == [c0, c1, c2, c3];
  }

  /** Position of a 5-index in a 5-D tensor, written out. */
  lemma Value5(a0: nat, a1: nat, a2: nat, a3: nat, a4: nat, c0: nat, c1: nat, c2: nat, c3: nat, c4: nat)
    ensures Value([a0, a1, a2, a3, a4], [c0, c1, c2, c3, c4]) ==
      c0 * (a1 * (a2 * (a3 * a4))) + c1 * (a2 * (a3 * a4)) + c2 * (a3 * a4) + c3 * a4 + c4
  {
    Value4(a1, a2, a3, a4, c1, c2, c3, c4);
    Product4(a1, a2, a3, a4);
    ValueCons(a0, [a1, a2, a3, a4], c0, [c1, c2, c3, c4]);
    assert [a0] + [a1, a2, a3, a4] == [a0, a1, a2, a3, a4];
    assert [c0] + [c1, c2, c3, c4] == [c0, c1, c2, c3, c4];
  }

  /** The position of an in-range multi-index lies inside the tensor. */
  lemma {:induction false} ValueBound(s: seq<nat>, d: seq<nat>)
    requires InRange(s, d)
    ensures Value(s, d) < Product(s)
  {
    if |s| > 0 {
      assert InRange(s[1..], d[1..]) by {
        forall i | 0 <= i < |s| - 1 ensures d[1..][i] < s[1..][i] { assert d[i + 1] < s[i + 1]; }
      }
      ValueBound(s[1..], d[1..]);
      var p := Product(s[1..]);
      MulMonotone(d[0] + 1, s[0], p);
      assert (d[0] + 1) * p == d[0] * p + p;
    }
  }

  lemma MulAssoc(a: nat, b: nat, c: nat)
    ensures a * (b * c) == (a * b) * c
  {
  }

  /** Dividing by st and reducing mod c ignores whole multiples of k * c * st. */
  lemma DivModIgnoresBlocks(id: nat, k: nat, c: nat, st: nat)
    requires c > 0 && st > 0 && k > 0
    ensures k * c * st > 0
    ensures id / st % c == id % (k * c * st) / st % c
  {
    MulPositive(k, c);
    var kc := k * c;
    MulPositive(kc, st);
    var p := kc * st;
    var q, r := id / p, id % p;
    assert id == q * p + r;
    var a := q * k;
    MulAssoc(q, kc, st);
    MulAssoc(q, k, c);
    assert q * p == (a * c) * st;
    DivAddMultiple(a * c, st, r);
    assert id / st == a * c + r / st;
    DivAddMultiple(a, c, r / st);
  }

  /** The extents after the leading one split around axis i. */
  lemma ProductSplit(s: seq<nat>, i: nat)
    requires 1 <= i < |s|
    ensures Product(s[1..]) == Product(s[1..i]) * s[i] * Stride(s, i)
  {
    assert s[1..] == s[1..i] + ([s[i]] + s[i + 1..]);
    ProductAppend(s[1..i], [s[i]] + s[i + 1..]);
    assert ([s[i]] + s[i + 1..])[1..] == s[i + 1..];
  }

  /** Coordinates on later axes only see the remainder below the leading block. */
  lemma CoordTail(s: seq<nat>, id: nat, i: nat)
    requires 1 <= i < |s| && Positive(s)
    ensures Positive(s[1..]) && Product(s[1..]) > 0
    ensures Coord(s, id, i) == Coord(s[1..], id % Product(s[1..]), i - 1)
  {
    PositiveTail(s);
    ProductPositive(s[1..]);
    ProductSplit(s, i);
    var k := Product(s[1..i]);
    assert k > 0 by {
      if k == 0 { MulPositive(k, s[i]); MulPositive(k * s[i], Stride(s, i)); }
    }
    StridePositive(s, i);
    DivModIgnoresBlocks(id, k, s[i], Stride(s, i));
    assert s[1..][i - 1] == s[i];
    assert s[1..][i..] == s[i + 1..];
  }

  /** Coordinates recover the multi-index that a position was built from. */
  lemma {:induction false} CoordsOfValue(s: seq<nat>, d: seq<nat>)
    requires InRange(s, d)
    ensures Positive(s)
    ensures Coords(s, Value(s, d)) == d
  {
    assert Positive(s) by {
      forall i | 0 <= i < |s| ensures s[i] > 0 { assert d[i] < s[i]; }
    }
    if |s| > 0 {
      var p1 := Product(s[1..]);
      var v1 := Value(s[1..], d[1..]);
      assert InRange(s[1..], d[1..]) by {
        forall i | 0 <= i < |s| - 1 ensures d[1..][i] < s[1..][i] { assert d[i + 1] < s[i + 1]; }
      }
      ValueBound(s[1..], d[1..]);
      CoordsOfValue(s[1..], d[1..]);
      var v := Value(s, d);
      DivModOfSum(d[0], p1, v1);
      forall i | 0 <= i < |s| ensures Coords(s, v)[i] == d[i] {
        if i == 0 {
          DivModOfSum(0, s[0], d[0]);
        } else {
          CoordTail(s, v, i);
          assert Coords(s[1..], v1)[i - 1] == d[1..][i - 1];
        }
      }
    }
  }

  /** The position of the coordinates of id is id itself. */
  lemma {:induction false} ValueOfCoords(s: seq<nat>, id: nat)
    requires Positive(s) && id < Product(s)
    ensures Value(s, Coords(s, id)) == id
  {
    if |s| > 0 {
      PositiveTail(s);
      var p1 := Product(s[1..]);
      ProductPositive(s[1..]);
      var q, r := id / p1, id % p1;
      assert id == q * p1 + r;
      assert q < s[0] by {
        if q >= s[0] {
          MulMonotone(s[0], q, p1);
        }
      }
      DivModOfSum(0, s[0], q);
      var c := Coords(s, id);
      assert c[1..] == Coords(s[1..], r) by {
        forall i | 0 <= i < |s| - 1 ensures c[1..][i] == Coords(s[1..], r)[i] {
          CoordTail(s, id, i + 1);
        }
      }
      ValueOfCoords(s[1..], r);
    }
  }

  /** Distinct in-range multi-indices have distinct positions. */
  lemma ValueInjective(s: seq<nat>, d1: seq<nat>, d2: seq<nat>)
    requires InRange(s, d1) && InRange(s, d2)
    requires Value(s, d1) == Value(s, d2)
    ensures d1 == d2
  {
    CoordsOfValue(s, d1);
    CoordsOfValue(s, d2);
  }

  /** Value written out as the per-axis sum `d[i] * stride_i` that generated code evaluates. */
  lemma {:induction false} ValueAsSum(s: seq<nat>, d: seq<nat>)
    requires |d| == |s|
    ensures Value(s, d) == Sum(seq(|s|, i requires 0 <= i < |s| => d[i] * Stride(s, i)))
  {
    var t := seq(|s|, i requires 0 <= i < |s| => d[i] * Stride(s, i));
    if |s| > 0 {
      ValueAsSum(s[1..], d[1..]);
      var t' := seq(|s| - 1, i requires 0 <= i < |s| - 1 => d[1..][i] * Stride(s[1..], i));
      assert t[1..] == t' by {
        forall i | 0 <= i < |s| - 1 ensures t[1..][i] == t'[i] {
          assert s[1..][i + 1..] == s[i + 2..];
        }
      }
    }
  }
}
