/**
 * What the offsets printed by `Generate` (ROperator_LSTM.hxx) point at.
 * Weight offsets select the block of a gate and direction in W and R; bias
 * and peephole offsets select the blocks the initializer built; the time-step
 * offset is the row-major position of (step, direction) in the
 * [seq, direction, batch, hidden] state buffers; and the layout-1 copy loops
 * are transposes in the sense of op_prototype/transpose.cpp.
 */
module LstmOffsets {
  import opened MixedRadix
  import opened LstmProgram
  import Transpose
  import LstmBroadcast

  /** Shape of the gate, cell and hidden state buffers. */
  function StateShape(cfg: Config): seq<nat>
  {
    [cfg.seqLength, cfg.numDirections, cfg.batchSize, cfg.hiddenSize]
  }

  /** Shape of the initial states and of Y_h, Y_c in layout 0. */
  function DirectionShape(cfg: Config): seq<nat>
  {
    [cfg.numDirections, cfg.batchSize, cfg.hiddenSize]
  }

  /** The loop counters at iteration `step` of a loop over time only. */
  function AtStep(t: nat): Env { Env(t, 0, 0, 0) }

  // ---------------------------------------------------------------------
  // Values of the printed index expressions

  lemma EvalStepOffset(cfg: Config, d: nat, e: Env)
    ensures Eval(TimeIndex(cfg, d), e) ==
            if cfg.Backward() || d == 1 then cfg.seqLength - 1 - e.step else e.step
    ensures Eval(StepOffset(cfg, d), e) ==
            Eval(TimeIndex(cfg, d), e) * cfg.DBH() + (if d == 0 then 0 else cfg.BH())
  {
    assert Eval(Times(TimeIndex(cfg, d), cfg.DBH()), e) == Eval(TimeIndex(cfg, d), e) * cfg.DBH();
  }

  lemma EvalPreviousOffset(cfg: Config, v: Variant, d: nat, e: Env)
    ensures Eval(PreviousOffset(cfg, v, d), e) ==
            var i := Eval(TimeIndex(cfg, d), e);
            if d == 0 then (if cfg.Backward() then (i + 1) * cfg.DBH() else (e.step - 1) * cfg.DBH())
            else if v == AsWritten then (i + 1) * (cfg.DBH() + cfg.BH())
            else (i + 1) * cfg.DBH() + cfg.BH()
  {
    var i := Eval(TimeIndex(cfg, d), e);
    assert Eval(Plus(TimeIndex(cfg, d), Const(1)), e) == i + 1;
    assert Eval(Minus(Var(SeqVar), Const(1)), e) == e.step - 1;
    assert Eval(Times(Plus(TimeIndex(cfg, d), Const(1)), cfg.DBH()), e) == (i + 1) * cfg.DBH();
  }

  lemma EvalMaskIndex(cfg: Config, v: Variant, d: nat, e: Env)
    ensures Eval(MaskIndex(cfg, v, d), e) ==
            (if v == AsWritten then e.step * (cfg.DBH() + d * cfg.BH()) else e.step * cfg.DBH() + d * cfg.BH())
            + e.batch * cfg.hiddenSize + e.inner
  {
    var bh := Plus(Times(Var(BatchVar), cfg.hiddenSize), Var(InnerVar));
    assert Eval(Var(BatchVar), e) == e.batch && Eval(Var(InnerVar), e) == e.inner;
    assert Eval(Times(Var(BatchVar), cfg.hiddenSize), e) == e.batch * cfg.hiddenSize;
    assert Eval(bh, e) == e.batch * cfg.hiddenSize + e.inner;
    assert Eval(Var(SeqVar), e) == e.step;
    assert Eval(Times(Var(SeqVar), cfg.DBH()), e) == e.step * cfg.DBH();
    assert Eval(Times(Var(SeqVar), cfg.DBH() + d * cfg.BH()), e) == e.step * (cfg.DBH() + d * cfg.BH());
    assert Eval(Plus(Times(Var(SeqVar), cfg.DBH()), Const(d * cfg.BH())), e) == e.step * cfg.DBH() + d * cfg.BH();
    if v == AsWritten {
      assert Eval(MaskIndex(cfg, v, d), e) == e.step * (cfg.DBH() + d * cfg.BH()) + Eval(bh, e);
    } else {
      assert Eval(MaskIndex(cfg, v, d), e) == e.step * cfg.DBH() + d * cfg.BH() + Eval(bh, e);
    }
  }

  // ---------------------------------------------------------------------
  // W and R

  lemma FourBlocks(n: nat, w: nat, x: nat)
    ensures n * (4 * w) * x == (4 * n) * (w * x)
  {
    MulAssoc(n, 4 * w, x);
    MulAssoc(4, w, x);
    MulAssoc(n, 4, w * x);
  }

  /**
   * The input weights of gate g in direction d are block 4 d + slot(g) of
   * the D * 4 blocks of H * I elements that make up W.
   */
  lemma WeightOffsetIsBlock(cfg: Config, d: nat, g: Gate)
    requires d < cfg.numDirections <= 2
    ensures WeightOffset(cfg, d, g) == (4 * d + GateSlot(g)) * (cfg.hiddenSize * cfg.inputSize)
    ensures WeightOffset(cfg, d, g) + cfg.hiddenSize * cfg.inputSize <=
            cfg.numDirections * (4 * cfg.hiddenSize) * cfg.inputSize
  {
    var hi := cfg.hiddenSize * cfg.inputSize;
    var k := 4 * d + GateSlot(g);
    assert WeightOffset(cfg, d, g) == k * hi by {
      if d == 1 { assert k * hi == 4 * hi + GateSlot(g) * hi; }
    }
    BlockFits(k, 4 * cfg.numDirections, hi);
    FourBlocks(cfg.numDirections, cfg.hiddenSize, cfg.inputSize);
  }

  /** The recurrence weights of gate g in direction d are block 4 d + slot(g) of R. */
  lemma RecurrenceOffsetIsBlock(cfg: Config, d: nat, g: Gate)
    requires d < cfg.numDirections <= 2
    ensures RecurrenceOffset(cfg, d, g) == (4 * d + GateSlot(g)) * (cfg.hiddenSize * cfg.hiddenSize)
    ensures RecurrenceOffset(cfg, d, g) + cfg.hiddenSize * cfg.hiddenSize <=
            cfg.numDirections * (4 * cfg.hiddenSize) * cfg.hiddenSize
  {
    var hh := cfg.hiddenSize * cfg.hiddenSize;
    var k := 4 * d + GateSlot(g);
    assert RecurrenceOffset(cfg, d, g) == k * hh by {
      if d == 1 { assert k * hh == 4 * hh + GateSlot(g) * hh; }
    }
    BlockFits(k, 4 * cfg.numDirections, hh);
    FourBlocks(cfg.numDirections, cfg.hiddenSize, cfg.hiddenSize);
  }

  // ---------------------------------------------------------------------
  // Time steps

  /**
   * `index` visits every time step exactly once: it stays in [0, S) and the
   * map from loop counter to step is its own inverse. It counts down for the
   * backward direction attribute and for direction 1, and up otherwise.
   */
  lemma TimeIndexIsInvolution(cfg: Config, d: nat, e: Env)
    requires e.step < cfg.seqLength
    ensures 0 <= Eval(TimeIndex(cfg, d), e) < cfg.seqLength
    ensures Eval(TimeIndex(cfg, d), e.(step := Eval(TimeIndex(cfg, d), e) as nat)) == e.step
    ensures (cfg.Backward() || d == 1) ==> Eval(TimeIndex(cfg, d), e) == cfg.seqLength - 1 - e.step
    ensures !(cfg.Backward() || d == 1) ==> Eval(TimeIndex(cfg, d), e) == e.step
  {
  }

  /**
   * `offset` is the row-major position of (index, d, 0, 0) in the
   * [S, D, B, H] state buffers, and the B * H elements of the step fit.
   */
  lemma StepOffsetIsPosition(cfg: Config, d: nat, e: Env)
    requires d < cfg.numDirections <= 2 && e.step < cfg.seqLength
    ensures 0 <= Eval(TimeIndex(cfg, d), e) < cfg.seqLength
    ensures Eval(StepOffset(cfg, d), e) ==
            Value(StateShape(cfg), [Eval(TimeIndex(cfg, d), e) as nat, d, 0, 0])
    ensures 0 <= Eval(StepOffset(cfg, d), e) && Eval(StepOffset(cfg, d), e) + cfg.BH() <= cfg.SDBH()
  {
    TimeIndexIsInvolution(cfg, d, e);
    EvalStepOffset(cfg, d, e);
    var i: nat := Eval(TimeIndex(cfg, d), e) as nat;
    Value4(cfg.seqLength, cfg.numDirections, cfg.batchSize, cfg.hiddenSize, i, d, 0, 0);
    BlockFits(d, cfg.numDirections, cfg.BH());
    BlockFits(i, cfg.seqLength, cfg.DBH());
  }

  /**
   * At every step after the first, the previous state is read where the
   * previous iteration of the same direction wrote it. This holds for the
   * corrected offsets, and for the offsets as written in direction 0.
   */
  lemma PreviousIsPriorStep(cfg: Config, v: Variant, d: nat, e: Env)
    requires d < cfg.numDirections <= 2 && 1 <= e.step < cfg.seqLength
    requires v == Corrected || d == 0
    ensures Eval(PreviousOffset(cfg, v, d), e) == Eval(StepOffset(cfg, d), e.(step := e.step - 1))
    ensures 0 <= Eval(PreviousOffset(cfg, v, d), e) && Eval(PreviousOffset(cfg, v, d), e) + cfg.BH() <= cfg.SDBH()
  {
    var e' := e.(step := e.step - 1);
    StepOffsetIsPosition(cfg, d, e');
    EvalStepOffset(cfg, d, e);
    EvalStepOffset(cfg, d, e');
    EvalPreviousOffset(cfg, v, d, e);
  }

  /**
   * With the correction, the peephole of a later step multiplies with the
   * cell state the previous step of the same direction wrote.
   */
  lemma LaterPeepholeReadsPreviousCell(cfg: Config, d: nat, g: Gate, e: Env)
    requires d < cfg.numDirections <= 2 && 1 <= e.step < cfg.seqLength
    ensures LaterPeephole(cfg, Corrected, d, g).op.b.buf == CellState
    ensures Eval(LaterPeephole(cfg, Corrected, d, g).op.b.off, e) == Eval(StepOffset(cfg, d), e.(step := e.step - 1))
  {
    PreviousIsPriorStep(cfg, Corrected, d, e);
  }

  /**
   * As written, direction 1 reads its previous state at (index + 1) * (DBH + BH)
   * instead of (index + 1) * DBH + BH: with two directions and three or more
   * steps, the second iteration reads past the end of the state buffers.
   */
  lemma PreviousOffsetAsWrittenOverruns(cfg: Config)
    requires cfg.numDirections == 2 && cfg.seqLength >= 3 && cfg.BH() > 0
    ensures Eval(PreviousOffset(cfg, AsWritten, 1), AtStep(1)) != Eval(StepOffset(cfg, 1), AtStep(0))
    ensures Eval(PreviousOffset(cfg, AsWritten, 1), AtStep(1)) + cfg.BH() > cfg.SDBH()
  {
    var s, x := cfg.seqLength, cfg.BH();
    assert cfg.DBH() == 2 * x;
    EvalPreviousOffset(cfg, AsWritten, 1, AtStep(1));
    EvalStepOffset(cfg, 1, AtStep(1));
    EvalStepOffset(cfg, 1, AtStep(0));
    assert Eval(PreviousOffset(cfg, AsWritten, 1), AtStep(1)) == (s - 1) * (3 * x);
    assert Eval(StepOffset(cfg, 1), AtStep(0)) == (s - 1) * (2 * x) + x;
    assert (s - 1) * (3 * x) == 3 * (s * x) - 3 * x;
    assert (s - 1) * (2 * x) == 2 * (s * x) - 2 * x;
    assert cfg.SDBH() == 2 * (s * x);
    MulMonotone(3, s, x);
  }

  // ---------------------------------------------------------------------
  // Initial states

  /** Corrected, direction d starts from its own block of the [D, B, H] initial states. */
  lemma InitialStateOffsetIsDirectionBlock(cfg: Config, d: nat)
    requires d < cfg.numDirections <= 2
    ensures InitialStateOffset(cfg, Corrected, d) == InitialPeepholeOffset(cfg, d)
    ensures InitialStateOffset(cfg, Corrected, d) == Value(DirectionShape(cfg), [d, 0, 0])
    ensures InitialStateOffset(cfg, Corrected, d) + cfg.BH() <= cfg.numDirections * cfg.BH()
  {
    Value3(cfg.numDirections, cfg.batchSize, cfg.hiddenSize, d, 0, 0);
    BlockFits(d, cfg.numDirections, cfg.BH());
  }

  /**
   * As written, the first recurrence and the first cell update of
   * direction 1 read direction 0's initial state, while its first peephole
   * reads direction 1's.
   */
  lemma InitialStateAsWrittenIsDirectionZero(cfg: Config)
    requires cfg.numDirections == 2 && cfg.BH() > 0
    ensures InitialStateOffset(cfg, AsWritten, 1) == Value(DirectionShape(cfg), [0, 0, 0])
    ensures InitialStateOffset(cfg, AsWritten, 1) != Value(DirectionShape(cfg), [1, 0, 0])
    ensures InitialPeepholeOffset(cfg, 1) == Value(DirectionShape(cfg), [1, 0, 0])
  {
    Value3(cfg.numDirections, cfg.batchSize, cfg.hiddenSize, 0, 0, 0);
    Value3(cfg.numDirections, cfg.batchSize, cfg.hiddenSize, 1, 0, 0);
  }

  // ---------------------------------------------------------------------
  // Padding

  /**
   * The padding loop clears position (seq, d, batch, h) of the state
   * buffers: with the corrected index in every direction, and with the
   * index as written in direction 0.
   */
  lemma MaskIndexIsPosition(cfg: Config, v: Variant, d: nat, e: Env)
    requires d < cfg.numDirections && e.step < cfg.seqLength && e.batch < cfg.batchSize && e.inner < cfg.hiddenSize
    requires v == Corrected || d == 0
    ensures Eval(MaskIndex(cfg, v, d), e) == Value(StateShape(cfg), [e.step, d, e.batch, e.inner])
    ensures 0 <= Eval(MaskIndex(cfg, v, d), e) < cfg.SDBH()
  {
    var shape := StateShape(cfg);
    var c: seq<nat> := [e.step, d, e.batch, e.inner];
    EvalMaskIndex(cfg, v, d, e);
    Value4(cfg.seqLength, cfg.numDirections, cfg.batchSize, cfg.hiddenSize, e.step, d, e.batch, e.inner);
    assert InRange(shape, c);
    ValueBound(shape, c);
    Product4(cfg.seqLength, cfg.numDirections, cfg.batchSize, cfg.hiddenSize);
  }

  /**
   * As written, the padding index of direction 1 is seq * (DBH + BH) + ...:
   * with two directions and three or more steps, the last step clears
   * elements past the end of the state buffers.
   */
  lemma MaskIndexAsWrittenOverruns(cfg: Config)
    requires cfg.numDirections == 2 && cfg.seqLength >= 3 && cfg.BH() > 0
    ensures Eval(MaskIndex(cfg, AsWritten, 1), AtStep(cfg.seqLength - 1)) >= cfg.SDBH()
  {
    var s, x := cfg.seqLength, cfg.BH();
    EvalMaskIndex(cfg, AsWritten, 1, AtStep(s - 1));
    assert Eval(MaskIndex(cfg, AsWritten, 1), AtStep(s - 1)) == (s - 1) * (3 * x);
    assert (s - 1) * (3 * x) == 3 * (s * x) - 3 * x;
    assert cfg.SDBH() == 2 * (s * x);
    MulMonotone(3, s, x);
  }

  // ---------------------------------------------------------------------
  // Final states

  /**
   * In layout 0 without sequence lengths, Y_h and Y_c receive the state
   * written by the last iteration of each direction's time loop, placed at
   * the direction's block of [D, B, H]; only the backward Y_c copy as
   * written is a range with ends in two different buffers.
   */
  lemma FinalStateTimeMajorIsLastStep(cfg: Config, v: Variant, state: Buffer, out: Buffer)
    requires 1 <= cfg.seqLength && 1 <= cfg.numDirections <= 2 && !cfg.hasSeqLens
    requires !(cfg.Backward() && state == CellState && v == AsWritten)
    ensures |FinalStateTimeMajor(cfg, v, state, out)| == cfg.numDirections
    ensures forall d :: 0 <= d < cfg.numDirections ==>
      FinalStateTimeMajor(cfg, v, state, out)[d] ==
        Call(Copy(At(state, Eval(StepOffset(cfg, d), AtStep(cfg.seqLength - 1))), cfg.BH(),
                  At(out, Value(DirectionShape(cfg), [d, 0, 0]))))
  {
    var last := AtStep(cfg.seqLength - 1);
    Value3(cfg.numDirections, cfg.batchSize, cfg.hiddenSize, 0, 0, 0);
    Value3(cfg.numDirections, cfg.batchSize, cfg.hiddenSize, 1, 0, 0);
    EvalStepOffset(cfg, 0, last);
    EvalStepOffset(cfg, 1, last);
  }

  /**
   * As written, the backward Y_c copy without sequence lengths is the range
   * [cell_state, hidden_state + B * H): its two ends lie in different buffers.
   */
  lemma BackwardCellCopyAsWrittenMixesBuffers(cfg: Config)
    requires cfg.Backward() && !cfg.hasSeqLens
    ensures FinalStateTimeMajor(cfg, AsWritten, CellState, TensorYc)[0].Call?
    ensures FinalStateTimeMajor(cfg, AsWritten, CellState, TensorYc)[0].call.CopyRange?
    ensures FinalStateTimeMajor(cfg, AsWritten, CellState, TensorYc)[0].call.first.buf !=
            FinalStateTimeMajor(cfg, AsWritten, CellState, TensorYc)[0].call.last.buf
  {
  }

  /** Source and destination of a per-batch final state copy of layout 1. */
  predicate CopiesStateOf(cfg: Config, st: Stmt, state: Buffer, out: Buffer, t: nat, d: nat, e: Env)
  {
    st.Loop? && |st.body| == 1 && st.body[0].op.Copy? && st.body[0].op.len == cfg.hiddenSize &&
    st.body[0].op.src.buf == state && st.body[0].op.dst.buf == out &&
    Eval(st.body[0].op.src.off, e) == Value(StateShape(cfg), [t, d, e.batch, 0]) &&
    Eval(st.body[0].op.dst.off, e) == Value([cfg.batchSize, cfg.numDirections, cfg.hiddenSize], [e.batch, d, 0])
  }

  /**
   * In layout 1 Y_h and Y_c receive, for each batch entry, the state of the
   * last step of each direction (the step before seq_lens[batch] when
   * given) at its place in [B, D, H].
   */
  lemma FinalStateBatchMajorIsLastStep(cfg: Config, state: Buffer, out: Buffer, e: Env)
    requires 1 <= cfg.numDirections <= 2 && 1 <= cfg.seqLength && e.batch < cfg.batchSize
    ensures |FinalStateBatchMajor(cfg, state, out)| == cfg.numDirections
    ensures CopiesStateOf(cfg, FinalStateBatchMajor(cfg, state, out)[0], state, out,
              if cfg.Backward() then 0 else if cfg.hasSeqLens then e.last else cfg.seqLength - 1, 0, e)
    ensures cfg.numDirections == 2 ==> CopiesStateOf(cfg, FinalStateBatchMajor(cfg, state, out)[1], state, out, 0, 1, e)
  {
    BatchMajorFirstCopy(cfg, state, out, e);
    if cfg.numDirections == 2 {
      BatchMajorSecondCopy(cfg, state, out, e);
    }
  }

  lemma BatchMajorFirstCopy(cfg: Config, state: Buffer, out: Buffer, e: Env)
    requires 1 <= cfg.numDirections <= 2 && 1 <= cfg.seqLength && e.batch < cfg.batchSize
    ensures |FinalStateBatchMajor(cfg, state, out)| == cfg.numDirections
    ensures CopiesStateOf(cfg, FinalStateBatchMajor(cfg, state, out)[0], state, out,
              if cfg.Backward() then 0 else if cfg.hasSeqLens then e.last else cfg.seqLength - 1, 0, e)
  {
    var s, dd, b, h := cfg.seqLength, cfg.numDirections, cfg.batchSize, cfg.hiddenSize;
    var r := FinalStateBatchMajor(cfg, state, out);
    var t := if cfg.Backward() then 0 else if cfg.hasSeqLens then e.last else s - 1;
    var batchOff := Times(Var(BatchVar), h);
    assert Eval(batchOff, e) == e.batch * h;
    assert Eval(Times(Var(BatchVar), dd * h), e) == e.batch * (dd * h);
    Value3(b, dd, h, e.batch, 0, 0);
    Value4(s, dd, b, h, t, 0, e.batch, 0);
    var op0 := r[0].body[0].op;
    if !cfg.Backward() {
      var last := if cfg.hasSeqLens then Var(LastVar) else Const(s - 1);
      assert Eval(last, e) == t;
      assert Eval(Times(last, cfg.DBH()), e) == t * cfg.DBH();
    }
    assert Eval(op0.src.off, e) == t * cfg.DBH() + e.batch * h;
  }

  lemma BatchMajorSecondCopy(cfg: Config, state: Buffer, out: Buffer, e: Env)
    requires cfg.numDirections == 2 && 1 <= cfg.seqLength && e.batch < cfg.batchSize
    ensures |FinalStateBatchMajor(cfg, state, out)| == 2
    ensures CopiesStateOf(cfg, FinalStateBatchMajor(cfg, state, out)[1], state, out, 0, 1, e)
  {
    var s, dd, b, h := cfg.seqLength, cfg.numDirections, cfg.batchSize, cfg.hiddenSize;
    var r := FinalStateBatchMajor(cfg, state, out);
    assert Eval(Times(Var(BatchVar), h), e) == e.batch * h;
    assert Eval(Times(Var(BatchVar), dd * h), e) == e.batch * (dd * h);
    Value3(b, dd, h, e.batch, 1, 0);
    Value4(s, dd, b, h, 0, 1, e.batch, 0);
    var op1 := r[1].body[0].op;
    assert Eval(op1.src.off, e) == cfg.BH() + e.batch * h;
    assert Eval(op1.dst.off, e) == e.batch * (dd * h) + h;
  }

  /** Source and destination of a per-batch final state copy of layout 0, into [D, B, H]. */
  predicate CopiesStateToDirection(cfg: Config, st: Stmt, state: Buffer, out: Buffer, t: nat, d: nat, e: Env)
  {
    st.Loop? && |st.body| == 1 && st.body[0].op.Copy? && st.body[0].op.len == cfg.hiddenSize &&
    st.body[0].op.src.buf == state && st.body[0].op.dst.buf == out &&
    Eval(st.body[0].op.src.off, e) == Value(StateShape(cfg), [t, d, e.batch, 0]) &&
    Eval(st.body[0].op.dst.off, e) == Value(DirectionShape(cfg), [d, e.batch, 0])
  }

  /**
   * In layout 0 with sequence lengths, Y_h and Y_c receive, for each batch
   * entry, the state of step seq_lens[batch] - 1 of the forward direction
   * (step 0 when the only direction is backward) and step 0 of direction 1,
   * at the entry's place in [D, B, H].
   */
  lemma FinalStateTimeMajorSeqLensIsLastStep(cfg: Config, v: Variant, state: Buffer, out: Buffer, e: Env)
    requires 1 <= cfg.numDirections <= 2 && 1 <= cfg.seqLength && cfg.hasSeqLens && e.batch < cfg.batchSize
    ensures |FinalStateTimeMajor(cfg, v, state, out)| == cfg.numDirections
    ensures CopiesStateToDirection(cfg, FinalStateTimeMajor(cfg, v, state, out)[0], state, out,
              if cfg.Backward() then 0 else e.last, 0, e)
    ensures cfg.numDirections == 2 ==>
              CopiesStateToDirection(cfg, FinalStateTimeMajor(cfg, v, state, out)[1], state, out, 0, 1, e)
  {
    TimeMajorFirstCopy(cfg, v, state, out, e);
    if cfg.numDirections == 2 {
      TimeMajorSecondCopy(cfg, v, state, out, e);
    }
  }

  lemma TimeMajorFirstCopy(cfg: Config, v: Variant, state: Buffer, out: Buffer, e: Env)
    requires 1 <= cfg.numDirections <= 2 && 1 <= cfg.seqLength && cfg.hasSeqLens && e.batch < cfg.batchSize
    ensures |FinalStateTimeMajor(cfg, v, state, out)| == cfg.numDirections
    ensures CopiesStateToDirection(cfg, FinalStateTimeMajor(cfg, v, state, out)[0], state, out,
              if cfg.Backward() then 0 else e.last, 0, e)
  {
    var s, dd, b, h := cfg.seqLength, cfg.numDirections, cfg.batchSize, cfg.hiddenSize;
    var r := FinalStateTimeMajor(cfg, v, state, out);
    var t := if cfg.Backward() then 0 else e.last;
    assert Eval(Times(Var(BatchVar), h), e) == e.batch * h;
    Value3(dd, b, h, 0, e.batch, 0);
    Value4(s, dd, b, h, t, 0, e.batch, 0);
    var op0 := r[0].body[0].op;
    if !cfg.Backward() {
      assert Eval(Times(Var(LastVar), cfg.DBH()), e) == t * cfg.DBH();
    }
    assert Eval(op0.src.off, e) == t * cfg.DBH() + e.batch * h;
  }

  lemma TimeMajorSecondCopy(cfg: Config, v: Variant, state: Buffer, out: Buffer, e: Env)
    requires cfg.numDirections == 2 && 1 <= cfg.seqLength && cfg.hasSeqLens && e.batch < cfg.batchSize
    ensures |FinalStateTimeMajor(cfg, v, state, out)| == 2
    ensures CopiesStateToDirection(cfg, FinalStateTimeMajor(cfg, v, state, out)[1], state, out, 0, 1, e)
  {
    var s, dd, b, h := cfg.seqLength, cfg.numDirections, cfg.batchSize, cfg.hiddenSize;
    var r := FinalStateTimeMajor(cfg, v, state, out);
    assert Eval(Times(Var(BatchVar), h), e) == e.batch * h;
    Value3(dd, b, h, 1, e.batch, 0);
    Value4(s, dd, b, h, 0, 1, e.batch, 0);
    var op1 := r[1].body[0].op;
    assert Eval(op1.src.off, e) == cfg.BH() + e.batch * h;
    assert Eval(op1.dst.off, e) == cfg.BH() + e.batch * h;
  }

  // ---------------------------------------------------------------------
  // Bias and peephole blocks

  /** The bias offset of a gate is the start of its (gate, direction) block of the broadcast bias. */
  lemma BiasOffsetIsBlock(cfg: Config, d: nat, g: Gate, s: nat, b: nat, h: nat)
    requires d < cfg.numDirections <= 2
    ensures BiasOffset(cfg, Corrected, d, g) + s * cfg.BH() + b * cfg.hiddenSize + h ==
            LstmBroadcast.BiasTargetIndex(cfg.numDirections, cfg.seqLength, cfg.batchSize, cfg.hiddenSize,
                                          GateSlot(g), d, s, b, h)
  {
    var D, S, B, H := cfg.numDirections, cfg.seqLength, cfg.batchSize, cfg.hiddenSize;
    LstmBroadcast.BiasTargetIndexIsValue(D, S, B, H, GateSlot(g), d, s, b, h);
    Value5(4, D, S, B, H, GateSlot(g), d, s, b, h);
  }

  /**
   * With the corrected forget offset, the bias added to element (s, b, h) of
   * a gate's feed-forward buffer is the cell (gate, d, s, b, h) of the
   * broadcast bias, which holds the sum of the input-weight and
   * recurrence-weight biases of that gate, direction and hidden unit.
   */
  lemma BiasAddReadsGateBias(cfg: Config, orig: seq<real>, d: nat, g: Gate, s: nat, b: nat, h: nat)
    requires d < cfg.numDirections <= 2
    requires |orig| >= cfg.numDirections * 8 * cfg.hiddenSize
    requires s < cfg.seqLength && b < cfg.batchSize && h < cfg.hiddenSize
    ensures BiasOffset(cfg, Corrected, d, g) + s * cfg.BH() + b * cfg.hiddenSize + h ==
            LstmBroadcast.BiasTargetIndex(cfg.numDirections, cfg.seqLength, cfg.batchSize, cfg.hiddenSize,
                                          GateSlot(g), d, s, b, h)
    ensures LstmBroadcast.BiasSourceIndex(cfg.hiddenSize, GateSlot(g), d, h) + 4 * cfg.hiddenSize < |orig|
    ensures LstmBroadcast.BiasTargetIndex(cfg.numDirections, cfg.seqLength, cfg.batchSize, cfg.hiddenSize,
                                          GateSlot(g), d, s, b, h) <
            |LstmBroadcast.BroadcastBiasSpec(orig, cfg.numDirections, cfg.seqLength, cfg.batchSize, cfg.hiddenSize)|
    ensures LstmBroadcast.BroadcastBiasSpec(orig, cfg.numDirections, cfg.seqLength, cfg.batchSize, cfg.hiddenSize)
              [LstmBroadcast.BiasTargetIndex(cfg.numDirections, cfg.seqLength, cfg.batchSize, cfg.hiddenSize,
                                             GateSlot(g), d, s, b, h)] ==
            orig[LstmBroadcast.BiasSourceIndex(cfg.hiddenSize, GateSlot(g), d, h)] +
            orig[LstmBroadcast.BiasSourceIndex(cfg.hiddenSize, GateSlot(g), d, h) + 4 * cfg.hiddenSize]
  {
    BiasOffsetIsBlock(cfg, d, g, s, b, h);
    LstmBroadcast.BroadcastBiasCell(orig, cfg.numDirections, cfg.seqLength, cfg.batchSize, cfg.hiddenSize,
                                    GateSlot(g), d, s, b, h);
  }

  /**
   * As written, the forget gate's bias offset is that of the cell gate: the
   * forget gate's feed-forward buffer is given the cell (3, d, s, b, h) of the
   * broadcast bias, the cell gate's bias sums (slot 3 of the [D, 8H] bias),
   * instead of its own (slot 1).
   */
  lemma ForgetBiasAsWrittenIsCellBias(cfg: Config, orig: seq<real>, d: nat, s: nat, b: nat, h: nat)
    requires d < cfg.numDirections <= 2
    requires |orig| >= cfg.numDirections * 8 * cfg.hiddenSize
    requires s < cfg.seqLength && b < cfg.batchSize && h < cfg.hiddenSize
    ensures BiasOffset(cfg, AsWritten, d, ForgetGate) != BiasOffset(cfg, Corrected, d, ForgetGate)
    ensures BiasOffset(cfg, AsWritten, d, ForgetGate) + s * cfg.BH() + b * cfg.hiddenSize + h ==
            LstmBroadcast.BiasTargetIndex(cfg.numDirections, cfg.seqLength, cfg.batchSize, cfg.hiddenSize,
                                          3, d, s, b, h)
  {
    BiasOffsetIsBlock(cfg, d, CellGate, s, b, h);
    var D, S, B, H := cfg.numDirections, cfg.seqLength, cfg.batchSize, cfg.hiddenSize;
    MulPositive(B, H);
    MulPositive(S, B * H);
    MulPositive(D, S * (B * H));
  }

  /**
   * The peephole offset of the input, forget or output gate is the start of
   * its (direction, gate) block of the broadcast peephole: element (b, h)
   * read by the peephole product is the weight of that gate and hidden unit.
   */
  lemma PeepholeReadsGateWeights(cfg: Config, orig: seq<real>, d: nat, g: Gate, b: nat, h: nat)
    requires d < cfg.numDirections <= 2 && g != CellGate
    requires |orig| >= cfg.numDirections * 3 * cfg.hiddenSize
    requires b < cfg.batchSize && h < cfg.hiddenSize
    ensures PeepholeOffset(cfg, d, g) + b * cfg.hiddenSize + h ==
            LstmBroadcast.PeepholeTargetIndex(cfg.numDirections, cfg.batchSize, cfg.hiddenSize, d, GateSlot(g), b, h)
    ensures LstmBroadcast.PeepholeSourceIndex(cfg.hiddenSize, d, GateSlot(g), h) < |orig|
    ensures LstmBroadcast.PeepholeTargetIndex(cfg.numDirections, cfg.batchSize, cfg.hiddenSize, d, GateSlot(g), b, h) <
            |LstmBroadcast.BroadcastPeepholeSpec(orig, cfg.numDirections, cfg.batchSize, cfg.hiddenSize)|
    ensures LstmBroadcast.BroadcastPeepholeSpec(orig, cfg.numDirections, cfg.batchSize, cfg.hiddenSize)
              [LstmBroadcast.PeepholeTargetIndex(cfg.numDirections, cfg.batchSize, cfg.hiddenSize, d, GateSlot(g), b, h)] ==
            orig[LstmBroadcast.PeepholeSourceIndex(cfg.hiddenSize, d, GateSlot(g), h)]
  {
    var D, B, H := cfg.numDirections, cfg.batchSize, cfg.hiddenSize;
    LstmBroadcast.PeepholeTargetIndexIsValue(D, B, H, d, GateSlot(g), b, h);
    Value4(D, 3, B, H, d, GateSlot(g), b, h);
    LstmBroadcast.BroadcastPeepholeCell(orig, D, B, H, d, GateSlot(g), b, h);
  }

  // ---------------------------------------------------------------------
  // Layout-1 copies are transposes

  /** [1, 0, 2] swaps the first two axes. */
  lemma SwapFirstTwo(a: nat, b: nat, c: nat)
    ensures Transpose.IsPermutation([1, 0, 2])
    ensures Transpose.Apply([a, b, c], [1, 0, 2]) == [b, a, c]
  {
    var p: seq<nat> := [1, 0, 2];
    forall k: nat | k < 3 ensures k in p {
      if k == 0 { assert p[1] == k; } else if k == 1 { assert p[0] == k; } else { assert p[2] == k; }
    }
  }

  /**
   * The layout-1 input loop writes element (seq, batch, i) of the time-major
   * input from element (batch, seq, i) of X: its destination index is the
   * transpose destination of its source index under axes [1, 0, 2].
   */
  lemma InputCopyIsTranspose(cfg: Config, e: Env)
    requires e.step < cfg.seqLength && e.batch < cfg.batchSize && e.inner < cfg.inputSize
    ensures Transpose.IsPermutation([1, 0, 2])
    ensures Positive([cfg.batchSize, cfg.seqLength, cfg.inputSize])
    ensures 0 <= Eval(InputTransposeCopy(cfg).src.off, e) < cfg.seqLength * cfg.batchSize * cfg.inputSize
    ensures Eval(InputTransposeCopy(cfg).dst.off, e) ==
            Transpose.Dest([cfg.batchSize, cfg.seqLength, cfg.inputSize], [1, 0, 2],
                           Eval(InputTransposeCopy(cfg).src.off, e) as nat)
  {
    var s, b, i := cfg.seqLength, cfg.batchSize, cfg.inputSize;
    var shape: seq<nat> := [b, s, i];
    var c: seq<nat> := [e.batch, e.step, e.inner];
    var op := InputTransposeCopy(cfg);
    SwapFirstTwo(b, s, i);
    SwapFirstTwo(e.batch, e.step, e.inner);
    Value3(b, s, i, e.batch, e.step, e.inner);
    Value3(s, b, i, e.step, e.batch, e.inner);
    assert Eval(Var(BatchVar), e) == e.batch && Eval(Var(SeqVar), e) == e.step && Eval(Var(InnerVar), e) == e.inner;
    assert Eval(Times(Var(BatchVar), s * i), e) == e.batch * (s * i);
    assert Eval(Times(Var(SeqVar), i), e) == e.step * i;
    assert Eval(op.src.off, e) == e.batch * (s * i) + e.step * i + e.inner;
    assert Eval(Times(Var(SeqVar), b * i), e) == e.step * (b * i);
    assert Eval(Times(Var(BatchVar), i), e) == e.batch * i;
    assert Eval(op.dst.off, e) == e.step * (b * i) + e.batch * i + e.inner;
    assert InRange(shape, c);
    Transpose.DestOfValue(shape, [1, 0, 2], c);
    ValueBound(shape, c);
    Product3(b, s, i);
    MulAssoc(s, b, i);
    MulAssoc(b, s, i);
  }

  /**
   * The layout-1 initial state loop writes element (d, batch, h) of the
   * direction-major state from element (batch, d, h) of the tensor.
   */
  lemma InitialCopyIsTranspose(cfg: Config, state: Buffer, tensor: Buffer, d: nat, e: Env)
    requires d < cfg.numDirections && e.batch < cfg.batchSize && e.inner < cfg.hiddenSize
    ensures Transpose.IsPermutation([1, 0, 2])
    ensures Positive([cfg.batchSize, cfg.numDirections, cfg.hiddenSize])
    ensures 0 <= Eval(InitialTransposeCopy(cfg, state, tensor, d).src.off, e) < cfg.numDirections * cfg.BH()
    ensures Eval(InitialTransposeCopy(cfg, state, tensor, d).dst.off, e) ==
            Transpose.Dest([cfg.batchSize, cfg.numDirections, cfg.hiddenSize], [1, 0, 2],
                           Eval(InitialTransposeCopy(cfg, state, tensor, d).src.off, e) as nat)
  {
    var dd, b, h := cfg.numDirections, cfg.batchSize, cfg.hiddenSize;
    var shape: seq<nat> := [b, dd, h];
    var c: seq<nat> := [e.batch, d, e.inner];
    var op := InitialTransposeCopy(cfg, state, tensor, d);
    SwapFirstTwo(b, dd, h);
    SwapFirstTwo(e.batch, d, e.inner);
    Value3(b, dd, h, e.batch, d, e.inner);
    Value3(dd, b, h, d, e.batch, e.inner);
    EvalInitialTransposeCopy(cfg, state, tensor, d, e);
    assert InRange(shape, c);
    Transpose.DestOfValue(shape, [1, 0, 2], c);
    ValueBound(shape, c);
    Product3(b, dd, h);
    assert Product(shape) == dd * cfg.BH() by {
      MulAssoc(dd, b, h);
      MulAssoc(b, dd, h);
    }
  }

  lemma EvalInitialTransposeCopy(cfg: Config, state: Buffer, tensor: Buffer, d: nat, e: Env)
    ensures Eval(InitialTransposeCopy(cfg, state, tensor, d).src.off, e) ==
            e.batch * (cfg.numDirections * cfg.hiddenSize) + d * cfg.hiddenSize + e.inner
    ensures Eval(InitialTransposeCopy(cfg, state, tensor, d).dst.off, e) ==
            d * cfg.BH() + e.batch * cfg.hiddenSize + e.inner
  {
    var dd, h := cfg.numDirections, cfg.hiddenSize;
    assert Eval(Var(BatchVar), e) == e.batch && Eval(Var(InnerVar), e) == e.inner;
    assert Eval(Times(Var(BatchVar), dd * h), e) == e.batch * (dd * h);
    assert Eval(Plus(Times(Var(BatchVar), dd * h), Const(d * h)), e) == e.batch * (dd * h) + d * h;
    assert Eval(Times(Var(BatchVar), h), e) == e.batch * h;
    assert Eval(Plus(Const(d * cfg.BH()), Times(Var(BatchVar), h)), e) == d * cfg.BH() + e.batch * h;
  }

  /** [2, 0, 1, 3] moves the third axis to the front. */
  lemma BatchToFront(a: nat, b: nat, c: nat, d: nat)
    ensures Transpose.IsPermutation([2, 0, 1, 3])
    ensures Transpose.Apply([a, b, c, d], [2, 0, 1, 3]) == [c, a, b, d]
  {
    var p: seq<nat> := [2, 0, 1, 3];
    forall k: nat | k < 4 ensures k in p {
      if k == 0 { assert p[1] == k; } else if k == 1 { assert p[2] == k; }
      else if k == 2 { assert p[0] == k; } else { assert p[3] == k; }
    }
  }

  /**
   * The layout-1 Y loop moves hidden unit h of (seq, d, batch) in the
   * [S, D, B, H] hidden state to (batch, seq, d, h) of Y: the transpose of
   * the state buffer under axes [2, 0, 1, 3].
   */
  lemma OutputCopyIsTranspose(cfg: Config, d: nat, e: Env, h: nat)
    requires d < cfg.numDirections && e.step < cfg.seqLength && e.batch < cfg.batchSize && h < cfg.hiddenSize
    ensures Transpose.IsPermutation([2, 0, 1, 3]) && Positive(StateShape(cfg))
    ensures 0 <= Eval(OutputTransposeCopy(cfg, d).src.off, e)
    ensures Eval(OutputTransposeCopy(cfg, d).src.off, e) + h == Value(StateShape(cfg), [e.step, d, e.batch, h])
    ensures Eval(OutputTransposeCopy(cfg, d).dst.off, e) + h ==
            Transpose.Dest(StateShape(cfg), [2, 0, 1, 3], Eval(OutputTransposeCopy(cfg, d).src.off, e) as nat + h)
  {
    var shape := StateShape(cfg);
    var c: seq<nat> := [e.step, d, e.batch, h];
    BatchToFront(cfg.seqLength, cfg.numDirections, cfg.batchSize, cfg.hiddenSize);
    BatchToFront(e.step, d, e.batch, h);
    OutputCopySourceValue(cfg, d, e, h);
    OutputCopyTargetValue(cfg, d, e, h);
    assert InRange(shape, c);
    Transpose.DestOfValue(shape, [2, 0, 1, 3], c);
  }

  /** The source offset of the layout-1 Y copy, plus h, is the position of (seq, d, batch, h) in [S, D, B, H]. */
  lemma OutputCopySourceValue(cfg: Config, d: nat, e: Env, h: nat)
    ensures 0 <= Eval(OutputTransposeCopy(cfg, d).src.off, e)
    ensures Eval(OutputTransposeCopy(cfg, d).src.off, e) + h ==
            Value(StateShape(cfg), [e.step, d, e.batch, h])
  {
    var dd, b, hs := cfg.numDirections, cfg.batchSize, cfg.hiddenSize;
    EvalOutputCopySource(cfg, d, e);
    assert cfg.BH() == b * hs && cfg.DBH() == dd * (b * hs);
    assert StateShape(cfg) == [cfg.seqLength, dd, b, hs];
    Value4(cfg.seqLength, dd, b, hs, e.step, d, e.batch, h);
  }

  /** The target offset of the layout-1 Y copy, plus h, is the position of (batch, seq, d, h) in [B, S, D, H]. */
  lemma OutputCopyTargetValue(cfg: Config, d: nat, e: Env, h: nat)
    ensures Eval(OutputTransposeCopy(cfg, d).dst.off, e) + h ==
            Value([cfg.batchSize, cfg.seqLength, cfg.numDirections, cfg.hiddenSize], [e.batch, e.step, d, h])
  {
    EvalOutputCopyTarget(cfg, d, e);
    Value4(cfg.batchSize, cfg.seqLength, cfg.numDirections, cfg.hiddenSize, e.batch, e.step, d, h);
  }

  /** The source of the layout-1 Y copy lies inside the hidden state buffer. */
  lemma OutputCopySourceBound(cfg: Config, d: nat, e: Env)
    requires d < cfg.numDirections && e.step < cfg.seqLength && e.batch < cfg.batchSize
    ensures OutputTransposeCopy(cfg, d).src.buf == HiddenState
    ensures 0 <= Eval(OutputTransposeCopy(cfg, d).src.off, e)
    ensures Eval(OutputTransposeCopy(cfg, d).src.off, e) + cfg.hiddenSize <= cfg.SDBH()
  {
    var x := e.step * cfg.DBH() + d * cfg.BH() + e.batch * cfg.hiddenSize;
    EvalOutputCopySource(cfg, d, e);
    StateBlockFits(cfg, e.step, d, e.batch);
    assert x + cfg.hiddenSize <= cfg.SDBH();
  }

  /** Row (t, d, b) of an [S, D, B, H] buffer ends inside it. */
  lemma StateBlockFits(cfg: Config, t: nat, d: nat, b: nat)
    requires t < cfg.seqLength && d < cfg.numDirections && b < cfg.batchSize
    ensures t * cfg.DBH() + d * cfg.BH() + b * cfg.hiddenSize + cfg.hiddenSize <= cfg.SDBH()
  {
    BlockFits(b, cfg.batchSize, cfg.hiddenSize);
    BlockFits(d, cfg.numDirections, cfg.BH());
    BlockFits(t, cfg.seqLength, cfg.DBH());
  }

  lemma EvalOutputCopySource(cfg: Config, d: nat, e: Env)
    ensures Eval(OutputTransposeCopy(cfg, d).src.off, e) ==
            e.step * cfg.DBH() + d * cfg.BH() + e.batch * cfg.hiddenSize
  {
    assert Eval(Var(BatchVar), e) == e.batch && Eval(Var(SeqVar), e) == e.step;
    assert Eval(Times(Var(SeqVar), cfg.DBH()), e) == e.step * cfg.DBH();
    assert Eval(Times(Var(BatchVar), cfg.hiddenSize), e) == e.batch * cfg.hiddenSize;
    assert Eval(Plus(Times(Var(SeqVar), cfg.DBH()), Const(d * cfg.BH())), e) == e.step * cfg.DBH() + d * cfg.BH();
  }

  lemma EvalOutputCopyTarget(cfg: Config, d: nat, e: Env)
    ensures Eval(OutputTransposeCopy(cfg, d).dst.off, e) ==
            e.batch * (cfg.seqLength * (cfg.numDirections * cfg.hiddenSize)) +
            e.step * (cfg.numDirections * cfg.hiddenSize) + d * cfg.hiddenSize
  {
    var s, dd, hs := cfg.seqLength, cfg.numDirections, cfg.hiddenSize;
    assert Eval(Var(BatchVar), e) == e.batch && Eval(Var(SeqVar), e) == e.step;
    assert Eval(Times(Var(BatchVar), s * (dd * hs)), e) == e.batch * (s * (dd * hs));
    assert Eval(Times(Var(SeqVar), dd * hs), e) == e.step * (dd * hs);
  }

}
