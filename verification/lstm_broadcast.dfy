/**
 * Canonicalisation of the LSTM bias and peephole initializers done by
 * `Initialize` (ROperator_LSTM.hxx). A 2-D bias [D, 8H] holds, per
 * direction, the input-weight bias of the four gates followed by the
 * recurrence-weight bias of the four gates; it becomes the 5-D tensor
 * [4, D, S, B, H] holding the per-gate sum of both halves, replicated for
 * every time step and batch entry. A 2-D peephole [D, 3H] becomes the 4-D
 * tensor [D, 3, B, H], replicated for every batch entry.
 */
module LstmBroadcast {
  import opened MixedRadix

  // ---------------------------------------------------------------------
  // Bias

  function BiasShape(d: nat, s: nat, b: nat, h: nat): seq<nat>
  {
    [4, d, s, b, h]
  }

  /** Index in the [D, 8H] bias of gate g, direction d, hidden unit h of the input-weight half. */
  function BiasSourceIndex(hidden: nat, g: nat, d: nat, h: nat): nat
  {
    d * 8 * hidden + g * hidden + h
  }

  lemma BiasSourceIndexBound(numDirections: nat, hidden: nat, g: nat, d: nat, h: nat)
    requires g < 4 && d < numDirections && h < hidden
    ensures BiasSourceIndex(hidden, g, d, h) + 4 * hidden < numDirections * 8 * hidden
  {
    MulMonotone(d + 1, numDirections, 8 * hidden);
    assert (d + 1) * (8 * hidden) == d * 8 * hidden + 8 * hidden;
    MulMonotone(g + 1, 4, hidden);
    assert (g + 1) * hidden == g * hidden + hidden;
    assert numDirections * 8 * hidden == numDirections * (8 * hidden);
  }

  /** The bias value for cell coordinates c = [gate, direction, seq, batch, hidden]. */
  function BiasCell(orig: seq<real>, numDirections: nat, hidden: nat, c: seq<nat>): real
    requires |orig| >= numDirections * 8 * hidden
    requires |c| == 5 && c[0] < 4 && c[1] < numDirections && c[4] < hidden
  {
    BiasSourceIndexBound(numDirections, hidden, c[0], c[1], c[4]);
    var k := BiasSourceIndex(hidden, c[0], c[1], c[4]);
    orig[k] + orig[k + 4 * hidden]
  }

  /** The broadcast bias: every cell holds the sum of the two halves for its gate, direction and hidden unit. */
  function BroadcastBiasSpec(orig: seq<real>, numDirections: nat, seqLength: nat, batch: nat, hidden: nat): (r: seq<real>)
    requires |orig| >= numDirections * 8 * hidden
    ensures |r| == Product(BiasShape(numDirections, seqLength, batch, hidden))
  {
    var shape := BiasShape(numDirections, seqLength, batch, hidden);
    seq(Product(shape), k requires 0 <= k < Product(shape) =>
      ProductPositive(shape);
      BiasCell(orig, numDirections, hidden, Coords(shape, k)))
  }

  /** Flat position of (g, d, s, b, h), written as the initializer computes it. */
  function BiasTargetIndex(numDirections: nat, seqLength: nat, batch: nat, hidden: nat,
                           g: nat, d: nat, s: nat, b: nat, h: nat): nat
  {
    g * numDirections * seqLength * batch * hidden + d * seqLength * batch * hidden
      + s * batch * hidden + b * hidden + h
  }

  lemma BiasTargetIndexIsValue(numDirections: nat, seqLength: nat, batch: nat, hidden: nat,
                               g: nat, d: nat, s: nat, b: nat, h: nat)
    ensures BiasTargetIndex(numDirections, seqLength, batch, hidden, g, d, s, b, h) ==
            Value(BiasShape(numDirections, seqLength, batch, hidden), [g, d, s, b, h])
  {
    Value5(4, numDirections, seqLength, batch, hidden, g, d, s, b, h);
    var bh := batch * hidden;
    var sbh := seqLength * bh;
    assert s * batch * hidden == s * bh by { MulAssoc(s, batch, hidden); }
    assert d * seqLength * batch * hidden == d * sbh by {
      MulAssoc(d, seqLength, batch);
      MulAssoc(d * seqLength, batch, hidden);
      MulAssoc(d, seqLength * batch, hidden);
      MulAssoc(seqLength, batch, hidden);
    }
    assert g * numDirections * seqLength * batch * hidden == g * (numDirections * sbh) by {
      MulAssoc(g, numDirections, seqLength);
      MulAssoc(g * numDirections, seqLength, batch);
      MulAssoc(g * numDirections * seqLength, batch, hidden);
      MulAssoc(g * numDirections, seqLength, bh);
      MulAssoc(g, numDirections, sbh);
      MulAssoc(seqLength, batch, hidden);
    }
  }

  /**
   * Each cell of the broadcast bias, addressed as the initializer addresses it,
   * is the sum of the input-weight and recurrence-weight biases of its gate.
   */
  lemma BroadcastBiasCell(orig: seq<real>, numDirections: nat, seqLength: nat, batch: nat, hidden: nat,
                          g: nat, d: nat, s: nat, b: nat, h: nat)
    requires |orig| >= numDirections * 8 * hidden
    requires g < 4 && d < numDirections && s < seqLength && b < batch && h < hidden
    ensures BiasSourceIndex(hidden, g, d, h) + 4 * hidden < |orig|
    ensures BiasTargetIndex(numDirections, seqLength, batch, hidden, g, d, s, b, h) <
            |BroadcastBiasSpec(orig, numDirections, seqLength, batch, hidden)|
    ensures BroadcastBiasSpec(orig, numDirections, seqLength, batch, hidden)
              [BiasTargetIndex(numDirections, seqLength, batch, hidden, g, d, s, b, h)] ==
            orig[BiasSourceIndex(hidden, g, d, h)] + orig[BiasSourceIndex(hidden, g, d, h) + 4 * hidden]
  {
    var shape := BiasShape(numDirections, seqLength, batch, hidden);
    var c: seq<nat> := [g, d, s, b, h];
    BiasSourceIndexBound(numDirections, hidden, g, d, h);
    BiasTargetIndexIsValue(numDirections, seqLength, batch, hidden, g, d, s, b, h);
    assert InRange(shape, c);
    ValueBound(shape, c);
    CoordsOfValue(shape, c);
  }

  /** The broadcast value does not depend on the time step or the batch entry. */
  lemma BroadcastBiasReplicated(orig: seq<real>, numDirections: nat, seqLength: nat, batch: nat, hidden: nat,
                                g: nat, d: nat, s1: nat, b1: nat, s2: nat, b2: nat, h: nat)
    requires |orig| >= numDirections * 8 * hidden
    requires g < 4 && d < numDirections && s1 < seqLength && b1 < batch && s2 < seqLength && b2 < batch && h < hidden
    ensures BiasTargetIndex(numDirections, seqLength, batch, hidden, g, d, s1, b1, h) <
            |BroadcastBiasSpec(orig, numDirections, seqLength, batch, hidden)|
    ensures BiasTargetIndex(numDirections, seqLength, batch, hidden, g, d, s2, b2, h) <
            |BroadcastBiasSpec(orig, numDirections, seqLength, batch, hidden)|
    ensures BroadcastBiasSpec(orig, numDirections, seqLength, batch, hidden)
              [BiasTargetIndex(numDirections, seqLength, batch, hidden, g, d, s1, b1, h)] ==
            BroadcastBiasSpec(orig, numDirections, seqLength, batch, hidden)
              [BiasTargetIndex(numDirections, seqLength, batch, hidden, g, d, s2, b2, h)]
  {
    BroadcastBiasCell(orig, numDirections, seqLength, batch, hidden, g, d, s1, b1, h);
    BroadcastBiasCell(orig, numDirections, seqLength, batch, hidden, g, d, s2, b2, h);
  }

  /** Distinct (g, d, s, b, h) are written at distinct cells: no cell is written twice. */
  lemma BiasTargetIndexInjective(numDirections: nat, seqLength: nat, batch: nat, hidden: nat,
                                 c1: seq<nat>, c2: seq<nat>)
    requires InRange(BiasShape(numDirections, seqLength, batch, hidden), c1)
    requires InRange(BiasShape(numDirections, seqLength, batch, hidden), c2)
    requires BiasTargetIndex(numDirections, seqLength, batch, hidden, c1[0], c1[1], c1[2], c1[3], c1[4]) ==
             BiasTargetIndex(numDirections, seqLength, batch, hidden, c2[0], c2[1], c2[2], c2[3], c2[4])
    ensures c1 == c2
  {
    var shape := BiasShape(numDirections, seqLength, batch, hidden);
    BiasTargetIndexIsValue(numDirections, seqLength, batch, hidden, c1[0], c1[1], c1[2], c1[3], c1[4]);
    BiasTargetIndexIsValue(numDirections, seqLength, batch, hidden, c2[0], c2[1], c2[2], c2[3], c2[4]);
    assert c1 == [c1[0], c1[1], c1[2], c1[3], c1[4]];
    assert c2 == [c2[0], c2[1], c2[2], c2[3], c2[4]];
    ValueInjective(shape, c1, c2);
  }

  /** Every cell of the [4, D, S, B, H] bias is the target of some (g, d, s, b, h). */
  lemma BiasTargetIndexCovers(numDirections: nat, seqLength: nat, batch: nat, hidden: nat, k: nat)
    returns (c: seq<nat>)
    requires k < Product(BiasShape(numDirections, seqLength, batch, hidden))
    ensures InRange(BiasShape(numDirections, seqLength, batch, hidden), c)
    ensures BiasTargetIndex(numDirections, seqLength, batch, hidden, c[0], c[1], c[2], c[3], c[4]) == k
  {
    var shape := BiasShape(numDirections, seqLength, batch, hidden);
    ProductPositive(shape);
    c := Coords(shape, k);
    ValueOfCoords(shape, k);
    BiasTargetIndexIsValue(numDirections, seqLength, batch, hidden, c[0], c[1], c[2], c[3], c[4]);
    assert c == [c[0], c[1], c[2], c[3], c[4]];
  }

  /** The copy for (g, d, s, b) ends where the next one in loop order starts. */
  lemma NextBiasBlock(numDirections: nat, seqLength: nat, batch: nat, hidden: nat,
                      g: nat, d: nat, s: nat, b: nat)
    ensures BiasTargetIndex(numDirections, seqLength, batch, hidden, g, d, s, b, 0) + hidden ==
            BiasTargetIndex(numDirections, seqLength, batch, hidden, g, d, s, b + 1, 0)
    ensures BiasTargetIndex(numDirections, seqLength, batch, hidden, g, d, s, batch, 0) ==
            BiasTargetIndex(numDirections, seqLength, batch, hidden, g, d, s + 1, 0, 0)
    ensures BiasTargetIndex(numDirections, seqLength, batch, hidden, g, d, seqLength, 0, 0) ==
            BiasTargetIndex(numDirections, seqLength, batch, hidden, g, d + 1, 0, 0, 0)
    ensures BiasTargetIndex(numDirections, seqLength, batch, hidden, g, numDirections, 0, 0, 0) ==
            BiasTargetIndex(numDirections, seqLength, batch, hidden, g + 1, 0, 0, 0, 0)
  {
    var N, S, B, H := numDirections, seqLength, batch, hidden;
    MulAddRight(b, 1, H);
    MulAddRight(s, 1, B);
    MulAddRight(s * B, B, H);
    MulAddRight(d, 1, S);
    MulAddRight(d * S, S, B);
    MulAddRight(d * S * B, S * B, H);
    MulAddRight(g, 1, N);
    MulAddRight(g * N, N, S);
    MulAddRight(g * N * S, N * S, B);
    MulAddRight(g * N * S * B, N * S * B, H);
  }

  lemma MulAddRight(x: nat, y: nat, z: nat)
    ensures (x + y) * z == x * z + y * z
  {
  }

  /** The broadcast bias holds 4 * D * S * B * H values, and the last copy ends there. */
  lemma BiasSize(numDirections: nat, seqLength: nat, batch: nat, hidden: nat)
    ensures Product(BiasShape(numDirections, seqLength, batch, hidden)) ==
            4 * numDirections * seqLength * batch * hidden
    ensures BiasTargetIndex(numDirections, seqLength, batch, hidden, 4, 0, 0, 0, 0) ==
            4 * numDirections * seqLength * batch * hidden
  {
    var N, S, B, H := numDirections, seqLength, batch, hidden;
    BiasTargetIndexIsValue(N, S, B, H, 4, 0, 0, 0, 0);
    Value5(4, N, S, B, H, 4, 0, 0, 0, 0);
    Product4(N, S, B, H);
    ValueCons(4, [N, S, B, H], 0, [0, 0, 0, 0]);
    assert [4] + [N, S, B, H] == BiasShape(N, S, B, H);
  }

  /** The H cells of the copy for (g, d, s, b) hold the per-gate sums of direction d. */
  lemma BiasBlockContents(orig: seq<real>, numDirections: nat, seqLength: nat, batch: nat, hidden: nat,
                          g: nat, d: nat, s: nat, b: nat)
    requires |orig| >= numDirections * 8 * hidden
    requires g < 4 && d < numDirections && s < seqLength && b < batch
    ensures BiasTargetIndex(numDirections, seqLength, batch, hidden, g, d, s, b, 0) + hidden <=
            |BroadcastBiasSpec(orig, numDirections, seqLength, batch, hidden)|
    ensures forall k :: 0 <= k < hidden ==>
              BroadcastBiasSpec(orig, numDirections, seqLength, batch, hidden)
                [BiasTargetIndex(numDirections, seqLength, batch, hidden, g, d, s, b, 0) + k] ==
              GateBiasSum(orig, numDirections, hidden, g, d)[k]
  {
    var N, S, B, H := numDirections, seqLength, batch, hidden;
    var start := BiasTargetIndex(N, S, B, H, g, d, s, b, 0);
    BiasTargetOrder(N, S, B, H, g, d, s, b);
    BiasSize(N, S, B, H);
    var sums := GateBiasSum(orig, N, H, g, d);
    forall k | 0 <= k < H
      ensures BroadcastBiasSpec(orig, N, S, B, H)[start + k] == sums[k]
    {
      BroadcastBiasCell(orig, N, S, B, H, g, d, s, b, k);
      assert BiasTargetIndex(N, S, B, H, g, d, s, b, k) == start + k;
    }
  }

  /** The copy for (g, d, s, b) ends no later than the whole tensor. */
  lemma BiasTargetOrder(numDirections: nat, seqLength: nat, batch: nat, hidden: nat,
                        g: nat, d: nat, s: nat, b: nat)
    requires g < 4 && d < numDirections && s < seqLength && b < batch
    ensures BiasTargetIndex(numDirections, seqLength, batch, hidden, g, d, s, b, 0) + hidden <=
            4 * numDirections * seqLength * batch * hidden
  {
    var N, S, B, H := numDirections, seqLength, batch, hidden;
    BiasTargetIndexIsValue(N, S, B, H, g, d, s, b, 0);
    Value5(4, N, S, B, H, g, d, s, b, 0);
    BiasBlockBound(N, S, B, H, g, d, s, b);
    BiasSize(N, S, B, H);
    Product4(N, S, B, H);
    ValueCons(4, [N, S, B, H], 0, [0, 0, 0, 0]);
    assert [4] + [N, S, B, H] == BiasShape(N, S, B, H);
  }

  lemma BiasBlockBound(numDirections: nat, seqLength: nat, batch: nat, hidden: nat,
                       g: nat, d: nat, s: nat, b: nat)
    requires g < 4 && d < numDirections && s < seqLength && b < batch
    ensures g * (numDirections * (seqLength * (batch * hidden))) + d * (seqLength * (batch * hidden))
            + s * (batch * hidden) + b * hidden + hidden <= 4 * (numDirections * (seqLength * (batch * hidden)))
  {
    var bh := batch * hidden;
    var sbh := seqLength * bh;
    var dsbh := numDirections * sbh;
    MulMonotone(b + 1, batch, hidden);
    MulMonotone(s + 1, seqLength, bh);
    MulMonotone(d + 1, numDirections, sbh);
    MulMonotone(g + 1, 4, dsbh);
  }

  lemma BiasSourceBlock(numDirections: nat, hidden: nat, g: nat, d: nat)
    requires g < 4 && d < numDirections
    ensures BiasSourceIndex(hidden, g, d, 0) + 5 * hidden <= numDirections * 8 * hidden
  {
    if hidden > 0 {
      BiasSourceIndexBound(numDirections, hidden, g, d, hidden - 1);
    }
  }

  /** The H per-gate sums of the input-weight and recurrence-weight biases of direction d. */
  function GateBiasSum(orig: seq<real>, numDirections: nat, hidden: nat, g: nat, d: nat): (r: seq<real>)
    requires |orig| >= numDirections * 8 * hidden
    requires g < 4 && d < numDirections
    ensures |r| == hidden
    ensures BiasSourceIndex(hidden, g, d, 0) + 5 * hidden <= |orig|
    ensures forall j :: 0 <= j < hidden ==>
      r[j] == orig[BiasSourceIndex(hidden, g, d, 0) + j] + orig[BiasSourceIndex(hidden, g, d, 0) + j + 4 * hidden]
  {
    BiasSourceBlock(numDirections, hidden, g, d);
    var src := BiasSourceIndex(hidden, g, d, 0);
    seq(hidden, j requires 0 <= j < hidden => orig[src + j] + orig[src + j + 4 * hidden])
  }

  /**
   * The copy loops for one gate and direction: the buffer of sums goes to
   * every (seq, batch) slot, extending the filled prefix of the result by
   * S * B * H cells.
   */
  method CopyBiasSlots(a: array<real>, sum: array<real>, ghost spec: seq<real>, orig: seq<real>,
                       numDirections: nat, seqLength: nat, batch: nat, hidden: nat, gate: nat, direction: nat)
    requires |orig| >= numDirections * 8 * hidden && gate < 4 && direction < numDirections
    requires spec == BroadcastBiasSpec(orig, numDirections, seqLength, batch, hidden) && a.Length == |spec|
    requires a != sum && sum[..] == GateBiasSum(orig, numDirections, hidden, gate, direction)
    requires BiasTargetIndex(numDirections, seqLength, batch, hidden, gate, direction, 0, 0, 0) <= a.Length
    requires forall k :: 0 <= k < BiasTargetIndex(numDirections, seqLength, batch, hidden, gate, direction, 0, 0, 0) ==>
      a[k] == spec[k]
    modifies a
    ensures BiasTargetIndex(numDirections, seqLength, batch, hidden, gate, direction + 1, 0, 0, 0) <= a.Length
    ensures forall k :: 0 <= k < BiasTargetIndex(numDirections, seqLength, batch, hidden, gate, direction + 1, 0, 0, 0) ==>
      a[k] == spec[k]
  {
    ghost var pos := BiasTargetIndex(numDirections, seqLength, batch, hidden, gate, direction, 0, 0, 0);
    for s := 0 to seqLength
      invariant pos == BiasTargetIndex(numDirections, seqLength, batch, hidden, gate, direction, s, 0, 0)
      invariant pos <= a.Length && forall k :: 0 <= k < pos ==> a[k] == spec[k]
    {
      for b := 0 to batch
        invariant pos == BiasTargetIndex(numDirections, seqLength, batch, hidden, gate, direction, s, b, 0)
        invariant pos <= a.Length && forall k :: 0 <= k < pos ==> a[k] == spec[k]
      {
        var biasOffset := gate * numDirections * seqLength * batch * hidden
          + direction * seqLength * batch * hidden + s * batch * hidden + b * hidden;
        assert biasOffset == pos;
        ghost var sums := GateBiasSum(orig, numDirections, hidden, gate, direction);
        BiasBlockContents(orig, numDirections, seqLength, batch, hidden, gate, direction, s, b);
        NextBiasBlock(numDirections, seqLength, batch, hidden, gate, direction, s, b);
        for h := 0 to hidden
          invariant pos == biasOffset + h
          invariant pos <= a.Length && forall k :: 0 <= k < pos ==> a[k] == spec[k]
        {
          assert spec[biasOffset + h] == sums[h] == sum[h];
          a[biasOffset + h] := sum[h];
          pos := pos + 1;
        }
      }
      NextBiasBlock(numDirections, seqLength, batch, hidden, gate, direction, s, batch);
    }
    NextBiasBlock(numDirections, seqLength, batch, hidden, gate, direction, seqLength, 0);
  }

  /**
   * The initializer's loops: for each gate, sum the two halves of the bias of
   * every direction into a buffer of H values, then copy that buffer to every
   * (seq, batch) slot of the [4, D, S, B, H] result.
   */
  method BroadcastBias(orig: seq<real>, numDirections: nat, seqLength: nat, batch: nat, hidden: nat)
    returns (newBias: seq<real>)
    requires |orig| >= numDirections * 8 * hidden
    ensures newBias == BroadcastBiasSpec(orig, numDirections, seqLength, batch, hidden)
  {
    ghost var spec := BroadcastBiasSpec(orig, numDirections, seqLength, batch, hidden);
    BiasSize(numDirections, seqLength, batch, hidden);
    var a := new real[4 * numDirections * seqLength * batch * hidden];
    for gate := 0 to 4
      invariant BiasTargetIndex(numDirections, seqLength, batch, hidden, gate, 0, 0, 0, 0) <= a.Length
      invariant forall k :: 0 <= k < BiasTargetIndex(numDirections, seqLength, batch, hidden, gate, 0, 0, 0, 0) ==>
        a[k] == spec[k]
    {
      var sum := new real[hidden];
      for direction := 0 to numDirections
        invariant BiasTargetIndex(numDirections, seqLength, batch, hidden, gate, direction, 0, 0, 0) <= a.Length
        invariant forall k :: 0 <= k < BiasTargetIndex(numDirections, seqLength, batch, hidden, gate, direction, 0, 0, 0) ==>
          a[k] == spec[k]
      {
        var offset := direction * 8 * hidden + gate * hidden;
        ghost var expected := GateBiasSum(orig, numDirections, hidden, gate, direction);
        assert offset == BiasSourceIndex(hidden, gate, direction, 0);
        for h := 0 to hidden
          modifies sum
          invariant forall j :: 0 <= j < h ==> sum[j] == expected[j]
        {
          sum[h] := orig[offset + h] + orig[offset + h + 4 * hidden];
        }
        assert sum[..] == expected;
        CopyBiasSlots(a, sum, spec, orig, numDirections, seqLength, batch, hidden, gate, direction);
      }
      NextBiasBlock(numDirections, seqLength, batch, hidden, gate, numDirections, 0, 0);
    }
    newBias := a[..];
  }

  // ---------------------------------------------------------------------
  // Peephole

  function PeepholeShape(d: nat, b: nat, h: nat): seq<nat>
  {
    [d, 3, b, h]
  }

  /** Index in the [D, 3H] peephole of direction d, gate g, hidden unit h. */
  function PeepholeSourceIndex(hidden: nat, d: nat, g: nat, h: nat): nat
  {
    d * 3 * hidden + g * hidden + h
  }

  lemma PeepholeSourceIndexBound(numDirections: nat, hidden: nat, d: nat, g: nat, h: nat)
    requires d < numDirections && g < 3 && h < hidden
    ensures PeepholeSourceIndex(hidden, d, g, h) < numDirections * 3 * hidden
  {
    MulMonotone(d + 1, numDirections, 3 * hidden);
    assert (d + 1) * (3 * hidden) == d * 3 * hidden + 3 * hidden;
    MulMonotone(g + 1, 3, hidden);
    assert numDirections * 3 * hidden == numDirections * (3 * hidden);
  }

  /** The peephole value for cell coordinates c = [direction, gate, batch, hidden]. */
  function PeepholeCell(orig: seq<real>, numDirections: nat, hidden: nat, c: seq<nat>): real
    requires |orig| >= numDirections * 3 * hidden
    requires |c| == 4 && c[0] < numDirections && c[1] < 3 && c[3] < hidden
  {
    PeepholeSourceIndexBound(numDirections, hidden, c[0], c[1], c[3]);
    orig[PeepholeSourceIndex(hidden, c[0], c[1], c[3])]
  }

  /** The broadcast peephole: every batch entry holds the weights of its direction and gate. */
  function BroadcastPeepholeSpec(orig: seq<real>, numDirections: nat, batch: nat, hidden: nat): (r: seq<real>)
    requires |orig| >= numDirections * 3 * hidden
    ensures |r| == Product(PeepholeShape(numDirections, batch, hidden))
  {
    var shape := PeepholeShape(numDirections, batch, hidden);
    seq(Product(shape), k requires 0 <= k < Product(shape) =>
      ProductPositive(shape);
      PeepholeCell(orig, numDirections, hidden, Coords(shape, k)))
  }

  /** Flat position of (d, g, b, h), written as the initializer computes it. */
  function PeepholeTargetIndex(numDirections: nat, batch: nat, hidden: nat, d: nat, g: nat, b: nat, h: nat): nat
  {
    d * 3 * batch * hidden + g * batch * hidden + b * hidden + h
  }

  lemma PeepholeTargetIndexIsValue(numDirections: nat, batch: nat, hidden: nat, d: nat, g: nat, b: nat, h: nat)
    ensures PeepholeTargetIndex(numDirections, batch, hidden, d, g, b, h) ==
            Value(PeepholeShape(numDirections, batch, hidden), [d, g, b, h])
  {
    Value4(numDirections, 3, batch, hidden, d, g, b, h);
    var bh := batch * hidden;
    assert g * batch * hidden == g * bh by { MulAssoc(g, batch, hidden); }
    assert d * 3 * batch * hidden == d * (3 * bh) by {
      MulAssoc(d, 3, batch);
      MulAssoc(d * 3, batch, hidden);
      MulAssoc(d, 3 * batch, hidden);
      MulAssoc(3, batch, hidden);
    }
  }

  /** Each cell of the broadcast peephole is the weight of its direction, gate and hidden unit. */
  lemma BroadcastPeepholeCell(orig: seq<real>, numDirections: nat, batch: nat, hidden: nat,
                              d: nat, g: nat, b: nat, h: nat)
    requires |orig| >= numDirections * 3 * hidden
    requires d < numDirections && g < 3 && b < batch && h < hidden
    ensures PeepholeSourceIndex(hidden, d, g, h) < |orig|
    ensures PeepholeTargetIndex(numDirections, batch, hidden, d, g, b, h) <
            |BroadcastPeepholeSpec(orig, numDirections, batch, hidden)|
    ensures BroadcastPeepholeSpec(orig, numDirections, batch, hidden)[PeepholeTargetIndex(numDirections, batch, hidden, d, g, b, h)] ==
            orig[PeepholeSourceIndex(hidden, d, g, h)]
  {
    var shape := PeepholeShape(numDirections, batch, hidden);
    var c: seq<nat> := [d, g, b, h];
    PeepholeSourceIndexBound(numDirections, hidden, d, g, h);
    PeepholeTargetIndexIsValue(numDirections, batch, hidden, d, g, b, h);
    assert InRange(shape, c);
    ValueBound(shape, c);
    CoordsOfValue(shape, c);
  }

  /** Distinct (d, g, b, h) are written at distinct cells. */
  lemma PeepholeTargetIndexInjective(numDirections: nat, batch: nat, hidden: nat, c1: seq<nat>, c2: seq<nat>)
    requires InRange(PeepholeShape(numDirections, batch, hidden), c1)
    requires InRange(PeepholeShape(numDirections, batch, hidden), c2)
    requires PeepholeTargetIndex(numDirections, batch, hidden, c1[0], c1[1], c1[2], c1[3]) ==
             PeepholeTargetIndex(numDirections, batch, hidden, c2[0], c2[1], c2[2], c2[3])
    ensures c1 == c2
  {
    var shape := PeepholeShape(numDirections, batch, hidden);
    PeepholeTargetIndexIsValue(numDirections, batch, hidden, c1[0], c1[1], c1[2], c1[3]);
    PeepholeTargetIndexIsValue(numDirections, batch, hidden, c2[0], c2[1], c2[2], c2[3]);
    assert c1 == [c1[0], c1[1], c1[2], c1[3]];
    assert c2 == [c2[0], c2[1], c2[2], c2[3]];
    ValueInjective(shape, c1, c2);
  }

  /** Every cell of the [D, 3, B, H] peephole is the target of some (d, g, b, h). */
  lemma PeepholeTargetIndexCovers(numDirections: nat, batch: nat, hidden: nat, k: nat) returns (c: seq<nat>)
    requires k < Product(PeepholeShape(numDirections, batch, hidden))
    ensures InRange(PeepholeShape(numDirections, batch, hidden), c)
    ensures PeepholeTargetIndex(numDirections, batch, hidden, c[0], c[1], c[2], c[3]) == k
  {
    var shape := PeepholeShape(numDirections, batch, hidden);
    ProductPositive(shape);
    c := Coords(shape, k);
    ValueOfCoords(shape, k);
    PeepholeTargetIndexIsValue(numDirections, batch, hidden, c[0], c[1], c[2], c[3]);
    assert c == [c[0], c[1], c[2], c[3]];
  }

  lemma PeepholeBlockBound(numDirections: nat, batch: nat, hidden: nat, d: nat, g: nat, b: nat)
    requires d < numDirections && g < 3 && b < batch
    ensures PeepholeTargetIndex(numDirections, batch, hidden, d, g, b, 0) + hidden <= numDirections * 3 * batch * hidden
  {
    PeepholeTargetIndexIsValue(numDirections, batch, hidden, d, g, b, 0);
    Value4(numDirections, 3, batch, hidden, d, g, b, 0);
    PeepholeBlockArith(numDirections, batch, hidden, d, g, b);
  }

  lemma PeepholeBlockArith(numDirections: nat, batch: nat, hidden: nat, d: nat, g: nat, b: nat)
    requires d < numDirections && g < 3 && b < batch
    ensures d * (3 * (batch * hidden)) + g * (batch * hidden) + b * hidden + 0 + hidden <= numDirections * 3 * batch * hidden
  {
    var bh := batch * hidden;
    BlockFits(b, batch, hidden);
    BlockFits(g, 3, bh);
    BlockFits(d, numDirections, 3 * bh);
    calc {
      numDirections * (3 * bh);
    == { MulAssoc(3, batch, hidden); }
      numDirections * ((3 * batch) * hidden);
    == { MulAssoc(numDirections, 3 * batch, hidden); }
      (numDirections * (3 * batch)) * hidden;
    == { MulAssoc(numDirections, 3, batch); }
      numDirections * 3 * batch * hidden;
    }
  }

  /** The copy for (d, g, b) ends where the next one in loop order starts. */
  lemma NextPeepholeBlock(numDirections: nat, batch: nat, hidden: nat, d: nat, g: nat, b: nat)
    ensures PeepholeTargetIndex(numDirections, batch, hidden, d, g, b, 0) + hidden ==
            PeepholeTargetIndex(numDirections, batch, hidden, d, g, b + 1, 0)
    ensures PeepholeTargetIndex(numDirections, batch, hidden, d, g, batch, 0) ==
            PeepholeTargetIndex(numDirections, batch, hidden, d, g + 1, 0, 0)
    ensures PeepholeTargetIndex(numDirections, batch, hidden, d, 3, 0, 0) ==
            PeepholeTargetIndex(numDirections, batch, hidden, d + 1, 0, 0, 0)
  {
    var B, H := batch, hidden;
    MulAddRight(b, 1, H);
    MulAddRight(g, 1, B);
    MulAddRight(g * B, B, H);
    MulAddRight(d, 1, 3);
    MulAddRight(d * 3, 3, B);
    MulAddRight(d * 3 * B, 3 * B, H);
  }

  /** The broadcast peephole holds D * 3 * B * H values, and the last copy ends there. */
  lemma PeepholeSize(numDirections: nat, batch: nat, hidden: nat)
    ensures Product(PeepholeShape(numDirections, batch, hidden)) == numDirections * 3 * batch * hidden
    ensures PeepholeTargetIndex(numDirections, batch, hidden, numDirections, 0, 0, 0) ==
            numDirections * 3 * batch * hidden
  {
    Product4(numDirections, 3, batch, hidden);
    MulAssoc(numDirections, 3, batch);
    MulAssoc(numDirections * 3, batch, hidden);
    MulAssoc(numDirections, 3 * batch, hidden);
    MulAssoc(3, batch, hidden);
  }

  /** The H weights of gate g of direction d. */
  function GatePeephole(orig: seq<real>, numDirections: nat, hidden: nat, d: nat, g: nat): (r: seq<real>)
    requires |orig| >= numDirections * 3 * hidden
    requires d < numDirections && g < 3
    ensures |r| == hidden
    ensures PeepholeSourceIndex(hidden, d, g, 0) + hidden <= |orig|
    ensures forall j :: 0 <= j < hidden ==> r[j] == orig[PeepholeSourceIndex(hidden, d, g, 0) + j]
  {
    PeepholeSourceBlock(numDirections, hidden, d, g);
    var src := PeepholeSourceIndex(hidden, d, g, 0);
    orig[src..src + hidden]
  }

  lemma PeepholeSourceBlock(numDirections: nat, hidden: nat, d: nat, g: nat)
    requires d < numDirections && g < 3
    ensures PeepholeSourceIndex(hidden, d, g, 0) + hidden <= numDirections * 3 * hidden
  {
    if hidden > 0 {
      PeepholeSourceIndexBound(numDirections, hidden, d, g, hidden - 1);
    }
  }

  /** The H cells of the copy for (d, g, b) hold the weights of gate g of direction d. */
  lemma PeepholeBlockContents(orig: seq<real>, numDirections: nat, batch: nat, hidden: nat, d: nat, g: nat, b: nat)
    requires |orig| >= numDirections * 3 * hidden
    requires d < numDirections && g < 3 && b < batch
    ensures PeepholeTargetIndex(numDirections, batch, hidden, d, g, b, 0) + hidden <=
            |BroadcastPeepholeSpec(orig, numDirections, batch, hidden)|
    ensures forall k :: 0 <= k < hidden ==>
              BroadcastPeepholeSpec(orig, numDirections, batch, hidden)
                [PeepholeTargetIndex(numDirections, batch, hidden, d, g, b, 0) + k] ==
              GatePeephole(orig, numDirections, hidden, d, g)[k]
  {
    var start := PeepholeTargetIndex(numDirections, batch, hidden, d, g, b, 0);
    PeepholeBlockBound(numDirections, batch, hidden, d, g, b);
    PeepholeSize(numDirections, batch, hidden);
    var w := GatePeephole(orig, numDirections, hidden, d, g);
    forall k | 0 <= k < hidden
      ensures BroadcastPeepholeSpec(orig, numDirections, batch, hidden)[start + k] == w[k]
    {
      BroadcastPeepholeCell(orig, numDirections, batch, hidden, d, g, b, k);
      assert PeepholeTargetIndex(numDirections, batch, hidden, d, g, b, k) == start + k;
    }
  }

  /**
   * The initializer's loops: for each direction and gate, copy the H weights
   * of that gate to every batch slot of the [D, 3, B, H] result.
   */
  method BroadcastPeephole(orig: seq<real>, numDirections: nat, batch: nat, hidden: nat)
    returns (newP: seq<real>)
    requires |orig| >= numDirections * 3 * hidden
    ensures newP == BroadcastPeepholeSpec(orig, numDirections, batch, hidden)
  {
    ghost var spec := BroadcastPeepholeSpec(orig, numDirections, batch, hidden);
    PeepholeSize(numDirections, batch, hidden);
    var a := new real[numDirections * 3 * batch * hidden];
    ghost var pos := 0;
    for direction := 0 to numDirections
      invariant pos == PeepholeTargetIndex(numDirections, batch, hidden, direction, 0, 0, 0)
      invariant pos <= a.Length && forall k :: 0 <= k < pos ==> a[k] == spec[k]
    {
      for gate := 0 to 3
        invariant pos == PeepholeTargetIndex(numDirections, batch, hidden, direction, gate, 0, 0)
        invariant pos <= a.Length && forall k :: 0 <= k < pos ==> a[k] == spec[k]
      {
        var pOffset := direction * 3 * hidden + gate * hidden;
        ghost var weights := GatePeephole(orig, numDirections, hidden, direction, gate);
        assert pOffset == PeepholeSourceIndex(hidden, direction, gate, 0);
        for b := 0 to batch
          invariant pos == PeepholeTargetIndex(numDirections, batch, hidden, direction, gate, b, 0)
          invariant pos <= a.Length && forall k :: 0 <= k < pos ==> a[k] == spec[k]
        {
          var offset := direction * 3 * batch * hidden + gate * batch * hidden + b * hidden;
          assert offset == pos;
          PeepholeBlockContents(orig, numDirections, batch, hidden, direction, gate, b);
          NextPeepholeBlock(numDirections, batch, hidden, direction, gate, b);
          for h := 0 to hidden
            invariant pos == offset + h
            invariant pos <= a.Length && forall k :: 0 <= k < pos ==> a[k] == spec[k]
          {
            assert spec[offset + h] == weights[h] == orig[pOffset + h];
            a[offset + h] := orig[pOffset + h];
            pos := pos + 1;
          }
        }
        NextPeepholeBlock(numDirections, batch, hidden, direction, gate, batch);
      }
      NextPeepholeBlock(numDirections, batch, hidden, direction, 3, 0);
    }
    newP := a[..];
  }
}
