/**
 * Type and shape inference of the LSTM operator (ROperator_LSTM.hxx).
 * X is [seq, batch, input] in the time-major layout 0 and [batch, seq, input]
 * in the batch-major layout 1; W is [directions, 4 * hidden, input].
 */
module LstmShapes {
  import opened LstmTypes
  import opened MixedRadix
  import Transpose

  /** Sequence length read from the shape of X for a layout. */
  function SeqLength(layout: nat, x: seq<nat>): (s: nat)
    requires |x| >= 2
    ensures s == x[if layout == 0 then 0 else 1]
  {
    if layout == 0 then x[0] else x[1]
  }

  /** Batch size read from the shape of X for a layout. */
  function BatchSize(layout: nat, x: seq<nat>): (b: nat)
    requires |x| >= 2
    ensures b == x[if layout == 0 then 1 else 0]
  {
    if layout == 0 then x[1] else x[0]
  }

  /** Position of the time axis in Y for a layout. */
  function YSeqAxis(layout: nat): nat { if layout == 0 then 0 else 1 }
  /** Position of the direction axis in Y for a layout. */
  function YDirAxis(layout: nat): nat { if layout == 0 then 1 else 2 }
  /** Position of the batch axis in Y for a layout. */
  function YBatchAxis(layout: nat): nat { if layout == 0 then 2 else 0 }

  /** s with the axis at position k removed. */
  function RemoveAxis(s: seq<nat>, k: nat): seq<nat>
    requires k < |s|
  {
    s[..k] + s[k + 1..]
  }

  /**
   * Output shapes [Y, Y_h, Y_c] from the shapes [X, W]. Y holds time,
   * direction, batch and hidden axes where the layout puts them; Y_h and
   * Y_c are Y without its time axis.
   */
  function ShapeInference(layout: nat, input: seq<seq<nat>>): (r: seq<seq<nat>>)
    requires |input| >= 2 && |input[0]| >= 2 && |input[1]| >= 2
    ensures |r| == 3 && |r[0]| == 4 && |r[1]| == 3 && r[1] == r[2]
    ensures r[0][YSeqAxis(layout)] == SeqLength(layout, input[0])
    ensures r[0][YDirAxis(layout)] == input[1][0]
    ensures r[0][YBatchAxis(layout)] == BatchSize(layout, input[0])
    ensures r[0][3] == input[1][1]
    ensures r[1] == RemoveAxis(r[0], YSeqAxis(layout))
  {
    var numDirections := input[1][0];
    var hiddenSize := input[1][1];
    if layout == 0 then
      var seqLength := input[0][0];
      var batchSize := input[0][1];
      [[seqLength, numDirections, batchSize, hiddenSize],
       [numDirections, batchSize, hiddenSize],
       [numDirections, batchSize, hiddenSize]]
    else
      var batchSize := input[0][0];
      var seqLength := input[0][1];
      [[batchSize, seqLength, numDirections, hiddenSize],
       [batchSize, numDirections, hiddenSize],
       [batchSize, numDirections, hiddenSize]]
  }

  /** Y holds S * D * B * H elements and Y_h, Y_c hold D * B * H, in either layout. */
  lemma ShapeInferenceSizes(layout: nat, input: seq<seq<nat>>)
    requires |input| >= 2 && |input[0]| >= 2 && |input[1]| >= 2
    ensures var s, b := SeqLength(layout, input[0]), BatchSize(layout, input[0]);
            var d, h := input[1][0], input[1][1];
            Product(ShapeInference(layout, input)[0]) == s * (d * (b * h)) &&
            Product(ShapeInference(layout, input)[1]) == d * (b * h) &&
            Product(ShapeInference(layout, input)[2]) == d * (b * h)
  {
    var r := ShapeInference(layout, input);
    var s, b := SeqLength(layout, input[0]), BatchSize(layout, input[0]);
    var d, h := input[1][0], input[1][1];
    if layout == 0 {
      Product4(s, d, b, h);
      Product3(d, b, h);
    } else {
      assert r[0] == [b, s, d, h] && r[1] == [b, d, h];
      Product4(b, s, d, h);
      Product3(b, d, h);
      MulAssoc(b, s, d * h);
      MulAssoc(s, b, d * h);
      MulAssoc(b, d, h);
      MulAssoc(d, b, h);
      assert b * (d * h) == d * (b * h);
      assert b * (s * (d * h)) == s * (b * (d * h));
    }
  }

  /**
   * The output shapes `Initialize` evidently intends: the hidden axis is
   * hidden_size, that is W's gate axis (4 * hidden_size rows) divided by four.
   */
  function OutputShapes(layout: nat, x: seq<nat>, w: seq<nat>): (r: seq<seq<nat>>)
    requires |x| >= 2 && |w| >= 2
    ensures |r| == 3 && |r[0]| == 4 && r[1] == r[2] && r[1] == RemoveAxis(r[0], YSeqAxis(layout))
    ensures r[0][YSeqAxis(layout)] == SeqLength(layout, x) && r[0][YDirAxis(layout)] == w[0]
    ensures r[0][YBatchAxis(layout)] == BatchSize(layout, x) && r[0][3] == w[1] / 4
  {
    ShapeInference(layout, [x, [w[0], w[1] / 4]])
  }

  /**
   * With W of shape [D, 4 * hidden, I], the corrected Y holds S * D * B * hidden
   * elements and Y_h, Y_c hold D * B * hidden: one element per state value
   * the emitted code copies out.
   */
  lemma OutputShapesHoldStates(layout: nat, x: seq<nat>, w: seq<nat>, hidden: nat)
    requires |x| >= 2 && |w| >= 2 && w[1] == 4 * hidden
    ensures OutputShapes(layout, x, w)[0][3] == hidden
    ensures var s, b, d := SeqLength(layout, x), BatchSize(layout, x), w[0];
            Product(OutputShapes(layout, x, w)[0]) == s * (d * (b * hidden)) &&
            Product(OutputShapes(layout, x, w)[1]) == d * (b * hidden) &&
            Product(OutputShapes(layout, x, w)[2]) == d * (b * hidden)
  {
    ShapeInferenceSizes(layout, [x, [w[0], w[1] / 4]]);
  }

  /**
   * As written, `Initialize` infers the output shapes from [X, W], so their
   * hidden axis is W's 4 * hidden gate rows: each registered output is four
   * times the size of the state it receives.
   */
  lemma ShapeInferenceOfWeightsAsWritten(layout: nat, x: seq<nat>, w: seq<nat>, hidden: nat)
    requires |x| >= 2 && |w| >= 2 && w[1] == 4 * hidden
    ensures ShapeInference(layout, [x, w])[0][3] == 4 * hidden
    ensures Product(ShapeInference(layout, [x, w])[0]) == 4 * Product(OutputShapes(layout, x, w)[0])
    ensures Product(ShapeInference(layout, [x, w])[1]) == 4 * Product(OutputShapes(layout, x, w)[1])
  {
    var s, b, d := SeqLength(layout, x), BatchSize(layout, x), w[0];
    ShapeInferenceSizes(layout, [x, w]);
    OutputShapesHoldStates(layout, x, w, hidden);
    MulAssoc(b, hidden, 4);
    MulAssoc(d, b * hidden, 4);
    MulAssoc(s, d * (b * hidden), 4);
    assert b * (4 * hidden) == 4 * (b * hidden);
    assert d * (b * (4 * hidden)) == 4 * (d * (b * hidden));
  }

  /**
   * The two layouts describe the same tensors with axes permuted: for X
   * given as [S, B, I] or as [B, S, I], the batch-major Y is the time-major
   * Y under the axis permutation [2, 0, 1, 3], and Y_h under [1, 0, 2].
   */
  lemma ShapeInferenceLayoutsTransposed(s: nat, b: nat, i: nat, w: seq<nat>)
    requires |w| >= 2
    ensures Transpose.IsPermutation([2, 0, 1, 3]) && Transpose.IsPermutation([1, 0, 2])
    ensures ShapeInference(1, [[b, s, i], w])[0] == Transpose.Apply(ShapeInference(0, [[s, b, i], w])[0], [2, 0, 1, 3])
    ensures ShapeInference(1, [[b, s, i], w])[1] == Transpose.Apply(ShapeInference(0, [[s, b, i], w])[1], [1, 0, 2])
  {
    var p4: seq<nat> := [2, 0, 1, 3];
    var p3: seq<nat> := [1, 0, 2];
    forall k: nat | k < 4 ensures k in p4 {
      if k == 0 { assert p4[1] == k; } else if k == 1 { assert p4[2] == k; }
      else if k == 2 { assert p4[0] == k; } else { assert p4[3] == k; }
    }
    forall k: nat | k < 3 ensures k in p3 {
      if k == 0 { assert p3[1] == k; } else if k == 1 { assert p3[0] == k; } else { assert p3[2] == k; }
    }
  }

  /** Output element types: the type of X, given for two outputs. */
  function TypeInference(input: seq<ElemType>): (r: seq<ElemType>)
    requires |input| >= 1
    ensures |r| == 2 && forall k :: 0 <= k < |r| ==> r[k] == input[0]
  {
    [input[0], input[0]]
  }

  /** The corrected inference: one element type, that of X, for each of Y, Y_h and Y_c. */
  function TypeInferenceAllOutputs(input: seq<ElemType>): (r: seq<ElemType>)
    requires |input| >= 1
    ensures forall k :: 0 <= k < |r| ==> r[k] == input[0]
    ensures forall layout: nat, shapes: seq<seq<nat>> ::
      |shapes| >= 2 && |shapes[0]| >= 2 && |shapes[1]| >= 2 ==> |r| == |ShapeInference(layout, shapes)|
  {
    [input[0], input[0], input[0]]
  }

  /** As written, type inference describes fewer outputs than shape inference. */
  lemma TypeInferenceMissesOutput(layout: nat, types: seq<ElemType>, shapes: seq<seq<nat>>)
    requires |types| >= 1 && |shapes| >= 2 && |shapes[0]| >= 2 && |shapes[1]| >= 2
    ensures |TypeInference(types)| < |ShapeInference(layout, shapes)|
  {
  }
}
