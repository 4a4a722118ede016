/**
 * Memory safety of the code emitted by `Generate` (ROperator_LSTM.hxx):
 * every pointer and length that an emitted operation uses stays inside the
 * buffer it points into, for every iteration of the loop around it.
 * Buffer capacities are the sizes the generator declares for its scratch
 * buffers and, for the operator's tensors, the sizes the emitted code
 * relies on, inputs and outputs alike: `Initialize` checks only their
 * ranks and W's gate axis, and leaves an output that already exists as it
 * is, so those sizes are hypotheses of the bounds theorem, not consequences
 * of the checks. Likewise every `sequence_lens` value is taken to lie in
 * [1, S]: the step `last` it selects ranges over [0, S) (`InLoop`).
 */
module LstmSafety {
  import opened MixedRadix
  import opened LstmProgram
  import opened LstmOffsets
  import Transpose

  /** Number of elements of each buffer. */
  function Capacity(cfg: Config, buf: Buffer): nat
  {
    var s, b, i, d, h := cfg.seqLength, cfg.batchSize, cfg.inputSize, cfg.numDirections, cfg.hiddenSize;
    match buf
    case TensorX => s * b * i
    case InputBuf => s * b * i
    case TensorW => d * (4 * h) * i
    case TensorR => d * (4 * h) * h
    case TensorB => 4 * cfg.DSBH()
    case TensorSeqLens => b
    case TensorInitialH => d * cfg.BH()
    case TensorInitialC => d * cfg.BH()
    case InitialHidden => d * cfg.BH()
    case InitialCell => d * cfg.BH()
    case TensorP => d * (3 * cfg.BH())
    case TensorY => cfg.SDBH()
    case TensorYh => d * cfg.BH()
    case TensorYc => d * cfg.BH()
    case FeedForward(_) => cfg.SBH()
    case GateBuf(_) => cfg.SDBH()
    case CellState => cfg.SDBH()
    case NewCellState => cfg.SDBH()
    case HiddenState => cfg.SDBH()
  }

  /** The len elements starting at p lie inside p's buffer at iteration e. */
  predicate Fits(cfg: Config, p: Ptr, len: nat, e: Env)
  {
    0 <= Eval(p.off, e) && Eval(p.off, e) + len <= Capacity(cfg, p.buf)
  }

  /** Every element the operation reads or writes at iteration e is inside its buffer. */
  predicate OpOk(cfg: Config, op: Op, e: Env)
  {
    match op
    case Gemm(m, n, k, a, b, c, _) => Fits(cfg, a, n * k, e) && Fits(cfg, b, m * k, e) && Fits(cfg, c, m * n, e)
    case Axpy(n, x, y) => Fits(cfg, x, n, e) && Fits(cfg, y, n, e)
    case Copy(src, len, dst) => Fits(cfg, src, len, e) && Fits(cfg, dst, len, e)
    case CopyRange(first, last, dst) =>
      first.buf == last.buf && Eval(first.off, e) <= Eval(last.off, e) &&
      Fits(cfg, first, (Eval(last.off, e) - Eval(first.off, e)) as nat, e) &&
      Fits(cfg, dst, (Eval(last.off, e) - Eval(first.off, e)) as nat, e)
    case Clip(p, len) => Fits(cfg, p, len, e)
    case Activate(slot, p, len) => slot < cfg.numActivations && Fits(cfg, p, len, e)
    case Mul(dst, a, b, len, _) => Fits(cfg, dst, len, e) && Fits(cfg, a, len, e) && Fits(cfg, b, len, e)
    case Fill(p, len) => Fits(cfg, p, len, e)
  }

  /** Whether a guard lets its operation run at iteration e; padding may apply anywhere. */
  predicate Admitted(guard: Guard, e: Env)
  {
    match guard
    case Always => true
    case FirstStep => e.step == 0
    case LaterStep => e.step >= 1
    case Padded => true
  }

  /** The counters of an iteration of a loop over (seqs, batches, inners); `last` is below S. */
  predicate InLoop(cfg: Config, seqs: nat, batches: nat, inners: nat, e: Env)
  {
    e.step < seqs && e.batch < batches && e.inner < inners && e.last < cfg.seqLength
  }

  /** Every admitted operation of a loop body is in bounds at iteration e. */
  predicate BodyOk(cfg: Config, body: seq<Guarded>, e: Env)
  {
    forall k :: 0 <= k < |body| && Admitted(body[k].guard, e) ==> OpOk(cfg, body[k].op, e)
  }

  /** Declarations have the capacity of their buffer, aliases join buffers of equal size, operations fit. */
  ghost predicate StmtOk(cfg: Config, st: Stmt)
  {
    match st
    case Declare(buf, size) => size == Capacity(cfg, buf)
    case Alias(alias, tensor) => Capacity(cfg, alias) == Capacity(cfg, tensor)
    case Call(op) => OpOk(cfg, op, Env(0, 0, 0, 0))
    case Loop(seqs, batches, inners, body) =>
      forall e: Env :: InLoop(cfg, seqs, batches, inners, e) ==> BodyOk(cfg, body, e)
  }

  ghost predicate AllOk(cfg: Config, prog: seq<Stmt>)
  {
    forall k :: 0 <= k < |prog| ==> StmtOk(cfg, prog[k])
  }

  /**
   * Configurations the generator handles: one or two directions, at least
   * one time step, and three activation names per direction.
   */
  predicate Valid(cfg: Config)
  {
    1 <= cfg.numDirections <= 2 && 1 <= cfg.seqLength && 3 * cfg.numDirections <= cfg.numActivations
  }

  // ---------------------------------------------------------------------
  // Composition

  lemma AllOkAppend(cfg: Config, a: seq<Stmt>, b: seq<Stmt>)
    requires AllOk(cfg, a) && AllOk(cfg, b)
    ensures AllOk(cfg, a + b)
  {
    forall k | 0 <= k < |a + b| ensures StmtOk(cfg, (a + b)[k]) {
      if k >= |a| { assert (a + b)[k] == b[k - |a|]; }
    }
  }

  lemma BodyOkAppend(cfg: Config, a: seq<Guarded>, b: seq<Guarded>, e: Env)
    requires BodyOk(cfg, a, e) && BodyOk(cfg, b, e)
    ensures BodyOk(cfg, a + b, e)
  {
    forall k | 0 <= k < |a + b| && Admitted((a + b)[k].guard, e) ensures OpOk(cfg, (a + b)[k].op, e) {
      if k >= |a| { assert (a + b)[k] == b[k - |a|]; }
    }
  }

  /** i * w + x + len stays within n * w when i < n and x + len stays within w. */
  lemma NestFits(i: nat, n: nat, w: nat, x: nat, len: nat)
    requires i < n && x + len <= w
    ensures i * w + x + len <= n * w
  {
    BlockFits(i, n, w);
  }

  // ---------------------------------------------------------------------
  // Prologue

  lemma InputSetupOk(cfg: Config)
    ensures AllOk(cfg, InputSetup(cfg))
  {
    if cfg.layout != 0 {
      var s, b, i := cfg.seqLength, cfg.batchSize, cfg.inputSize;
      var op := InputTransposeCopy(cfg);
      forall e: Env | InLoop(cfg, s, b, i, e) ensures BodyOk(cfg, [Guarded(Always, op)], e) {
        InputCopyIsTranspose(cfg, e);
        var shape := [b, s, i];
        Transpose.DestInRange(shape, [1, 0, 2], Eval(op.src.off, e) as nat);
        Product3(b, s, i);
        MulAssoc(b, s, i);
        MulAssoc(s, b, i);
        assert Product(shape) == s * b * i;
      }
    }
  }

  lemma InitialSetupOk(cfg: Config, present: bool, state: Buffer, tensor: Buffer)
    requires state == InitialHidden || state == InitialCell
    requires tensor == TensorInitialH || tensor == TensorInitialC
    ensures AllOk(cfg, InitialSetup(cfg, present, state, tensor))
  {
    if present && cfg.layout != 0 {
      var dd, b, h := cfg.numDirections, cfg.batchSize, cfg.hiddenSize;
      var copies := InitialCopies(cfg, state, tensor, dd);
      forall k | 0 <= k < dd ensures StmtOk(cfg, copies[k]) {
        InitialCopiesAt(cfg, state, tensor, dd, k);
        var op := InitialTransposeCopy(cfg, state, tensor, k);
        forall e: Env | InLoop(cfg, 1, b, h, e) ensures BodyOk(cfg, [Guarded(Always, op)], e) {
          InitialCopyIsTranspose(cfg, state, tensor, k, e);
          var shape := [b, dd, h];
          Transpose.DestInRange(shape, [1, 0, 2], Eval(op.src.off, e) as nat);
          Product3(b, dd, h);
          MulAssoc(b, dd, h);
          MulAssoc(dd, b, h);
          assert Product(shape) == dd * cfg.BH();
        }
      }
      AllOkAppend(cfg, [Declare(state, dd * cfg.BH())], copies);
    }
  }

  lemma {:induction false} InitialCopiesAt(cfg: Config, state: Buffer, tensor: Buffer, n: nat, k: nat)
    requires k < n
    ensures InitialCopies(cfg, state, tensor, n)[k] == InitialCopy(cfg, state, tensor, k)
  {
    if k < n - 1 {
      InitialCopiesAt(cfg, state, tensor, n - 1, k);
    }
  }

  lemma ScratchSetupOk(cfg: Config)
    ensures AllOk(cfg, ScratchSetup(cfg))
  {
  }

  lemma PrologueOk(cfg: Config)
    ensures AllOk(cfg, Prologue(cfg))
  {
    InputSetupOk(cfg);
    InitialSetupOk(cfg, cfg.hasInitialH, InitialHidden, TensorInitialH);
    InitialSetupOk(cfg, cfg.hasInitialC, InitialCell, TensorInitialC);
    ScratchSetupOk(cfg);
    AllOkAppend(cfg, InputSetup(cfg), InitialSetup(cfg, cfg.hasInitialH, InitialHidden, TensorInitialH));
    AllOkAppend(cfg, InputSetup(cfg) + InitialSetup(cfg, cfg.hasInitialH, InitialHidden, TensorInitialH),
                InitialSetup(cfg, cfg.hasInitialC, InitialCell, TensorInitialC));
    AllOkAppend(cfg, InputSetup(cfg) + InitialSetup(cfg, cfg.hasInitialH, InitialHidden, TensorInitialH) +
                     InitialSetup(cfg, cfg.hasInitialC, InitialCell, TensorInitialC), ScratchSetup(cfg));
  }

  // ---------------------------------------------------------------------
  // One direction

  /** Each gate's block of the broadcast bias lies inside the [4, D, S, B, H] bias. */
  lemma BiasBlockFits(cfg: Config, d: nat, g: Gate)
    requires d < cfg.numDirections <= 2
    ensures BiasOffset(cfg, Corrected, d, g) + cfg.SBH() <= Capacity(cfg, TensorB)
  {
    var slot := GateSlot(g);
    assert BiasOffset(cfg, Corrected, d, g) == slot * cfg.DSBH() + d * cfg.SBH();
    NestFits(d, cfg.numDirections, cfg.SBH(), 0, cfg.SBH());
    NestFits(slot, 4, cfg.DSBH(), d * cfg.SBH(), cfg.SBH());
  }

  /** The weights of the input, forget and output peepholes lie inside the [D, 3, B, H] peephole. */
  lemma PeepholeBlockFits(cfg: Config, d: nat, g: Gate)
    requires d < cfg.numDirections <= 2 && g != CellGate
    ensures PeepholeOffset(cfg, d, g) + cfg.BH() <= Capacity(cfg, TensorP)
  {
    var slot := GateSlot(g);
    assert PeepholeOffset(cfg, d, g) == d * (3 * cfg.BH()) + slot * cfg.BH();
    NestFits(slot, 3, cfg.BH(), 0, cfg.BH());
    NestFits(d, cfg.numDirections, 3 * cfg.BH(), slot * cfg.BH(), cfg.BH());
  }

  /** The step block of direction d fits in every [S, D, B, H] buffer. */
  lemma StepFits(cfg: Config, d: nat, e: Env, buf: Buffer)
    requires d < cfg.numDirections <= 2 && e.step < cfg.seqLength
    requires buf.GateBuf? || buf == CellState || buf == NewCellState || buf == HiddenState
    ensures Fits(cfg, Ptr(buf, StepOffset(cfg, d)), cfg.BH(), e)
  {
    StepOffsetIsPosition(cfg, d, e);
  }

  /** From the second step on, the previous step's block fits in every [S, D, B, H] buffer. */
  lemma PreviousFits(cfg: Config, d: nat, e: Env, buf: Buffer)
    requires d < cfg.numDirections <= 2 && 1 <= e.step < cfg.seqLength
    requires buf == CellState || buf == HiddenState
    ensures Fits(cfg, Ptr(buf, PreviousOffset(cfg, Corrected, d)), cfg.BH(), e)
  {
    PreviousIsPriorStep(cfg, Corrected, d, e);
  }

  lemma FeedForwardOk(cfg: Config, d: nat)
    requires d < cfg.numDirections <= 2
    ensures AllOk(cfg, FeedForwardGemms(cfg, d))
  {
    var gs := Gates(cfg);
    forall k | 0 <= k < |gs| ensures StmtOk(cfg, FeedForwardGemm(cfg, d, gs[k])) {
      WeightOffsetIsBlock(cfg, d, gs[k]);
      MulAssoc(cfg.seqLength, cfg.batchSize, cfg.hiddenSize);
    }
  }

  lemma BiasAddsOk(cfg: Config, d: nat)
    requires d < cfg.numDirections <= 2
    ensures AllOk(cfg, BiasAdds(cfg, Corrected, d))
  {
    var gs := Gates(cfg);
    forall k | 0 <= k < |gs| ensures StmtOk(cfg, BiasAdd(cfg, Corrected, d, gs[k])) {
      BiasBlockFits(cfg, d, gs[k]);
    }
  }

  lemma GateCopyOk(cfg: Config, d: nat, g: Gate, e: Env)
    requires d < cfg.numDirections <= 2 && e.step < cfg.seqLength
    ensures OpOk(cfg, GateCopy(cfg, d, g).op, e)
  {
    var bh, dbh := cfg.BH(), cfg.DBH();
    var op := GateCopy(cfg, d, g).op;
    var x := if d == 0 then 0 else bh;
    assert Eval(Times(Var(SeqVar), bh), e) == e.step * bh;
    assert Eval(Times(Var(SeqVar), dbh), e) == e.step * dbh;
    assert Eval(op.dst.off, e) == e.step * dbh + x;
    assert x == d * bh;
    GateCopyFits(cfg.seqLength, cfg.numDirections, bh, e.step, d);
  }

  /** Step t's block of a feed-forward buffer, and block (t, d) of a gate buffer, are inside them. */
  lemma GateCopyFits(s: nat, n: nat, w: nat, t: nat, d: nat)
    requires t < s && d < n
    ensures t * w + w <= s * w
    ensures t * (n * w) + d * w + w <= s * (n * w)
  {
    BlockFits(t, s, w);
    NestFits(d, n, w, 0, w);
    NestFits(t, s, n * w, d * w, w);
  }

  lemma GateCopiesOk(cfg: Config, d: nat)
    requires d < cfg.numDirections <= 2
    ensures StmtOk(cfg, Loop(cfg.seqLength, 1, 1, GateCopies(cfg, d)))
  {
    var gs := Gates(cfg);
    var body := GateCopies(cfg, d);
    forall e: Env | InLoop(cfg, cfg.seqLength, 1, 1, e) ensures BodyOk(cfg, body, e) {
      forall k | 0 <= k < |body| ensures OpOk(cfg, body[k].op, e) {
        GateCopyOk(cfg, d, gs[k], e);
      }
    }
  }

  lemma RecurrencesOk(cfg: Config, d: nat, e: Env)
    requires d < cfg.numDirections <= 2 && e.step < cfg.seqLength
    ensures BodyOk(cfg, Recurrences(cfg, Corrected, d), e)
  {
    var gs := Gates(cfg);
    var first := seq(|gs|, k requires 0 <= k < |gs| => FirstRecurrence(cfg, Corrected, d, gs[k]));
    var later := seq(|gs|, k requires 0 <= k < |gs| => LaterRecurrence(cfg, Corrected, d, gs[k]));
    InitialStateOffsetIsDirectionBlock(cfg, d);
    StepFits(cfg, d, e, GateBuf(InputGate));
    forall k | 0 <= k < |gs| ensures OpOk(cfg, first[k].op, e) {
      RecurrenceOffsetIsBlock(cfg, d, gs[k]);
      StepFits(cfg, d, e, GateBuf(gs[k]));
    }
    forall k | 0 <= k < |gs| && Admitted(later[k].guard, e) ensures OpOk(cfg, later[k].op, e) {
      RecurrenceOffsetIsBlock(cfg, d, gs[k]);
      StepFits(cfg, d, e, GateBuf(gs[k]));
      PreviousFits(cfg, d, e, HiddenState);
    }
    BodyOkAppend(cfg, if cfg.hasInitialH then first else [], later, e);
  }

  lemma ActivationOk(cfg: Config, d: nat, slot: nat, buf: Buffer, e: Env)
    requires d < cfg.numDirections <= 2 && e.step < cfg.seqLength && slot < 3 * d + 3
    requires 3 * cfg.numDirections <= cfg.numActivations
    requires buf.GateBuf? || buf == NewCellState
    ensures BodyOk(cfg, Activation(cfg, d, slot, buf), e)
  {
    StepFits(cfg, d, e, buf);
  }

  lemma PeepholesOk(cfg: Config, d: nat, e: Env)
    requires d < cfg.numDirections <= 2 && e.step < cfg.seqLength
    ensures BodyOk(cfg, Peepholes(cfg, Corrected, d), e)
  {
    if cfg.hasP {
      var ps := PeepholeGates(cfg);
      var first := seq(|ps|, k requires 0 <= k < |ps| => FirstPeephole(cfg, d, ps[k]));
      var later := seq(|ps|, k requires 0 <= k < |ps| => LaterPeephole(cfg, Corrected, d, ps[k]));
      InitialStateOffsetIsDirectionBlock(cfg, d);
      forall k | 0 <= k < |ps| ensures OpOk(cfg, first[k].op, e) {
        PeepholeBlockFits(cfg, d, ps[k]);
        StepFits(cfg, d, e, GateBuf(ps[k]));
      }
      forall k | 0 <= k < |ps| && Admitted(later[k].guard, e) ensures OpOk(cfg, later[k].op, e) {
        PeepholeBlockFits(cfg, d, ps[k]);
        StepFits(cfg, d, e, GateBuf(ps[k]));
        PreviousFits(cfg, d, e, CellState);
      }
      BodyOkAppend(cfg, if cfg.hasInitialC then first else [], later, e);
    }
  }

  lemma CellUpdateOk(cfg: Config, d: nat, e: Env)
    requires d < cfg.numDirections <= 2 && e.step < cfg.seqLength
    ensures BodyOk(cfg, CellUpdate(cfg, Corrected, d), e)
  {
    InitialStateOffsetIsDirectionBlock(cfg, d);
    StepFits(cfg, d, e, CellState);
    StepFits(cfg, d, e, GateBuf(InputGate));
    StepFits(cfg, d, e, GateBuf(CellGate));
    StepFits(cfg, d, e, GateBuf(ForgetGate));
    if e.step >= 1 {
      PreviousFits(cfg, d, e, CellState);
    }
  }

  lemma OutputUpdateOk(cfg: Config, d: nat, e: Env)
    requires d < cfg.numDirections <= 2 && e.step < cfg.seqLength
    requires 3 * cfg.numDirections <= cfg.numActivations
    ensures BodyOk(cfg, OutputUpdate(cfg, d), e)
  {
    var off := StepOffset(cfg, d);
    var bh := cfg.BH();
    var peephole := if cfg.hasP then
       [Guarded(Always, Mul(Ptr(GateBuf(OutputGate), off), At(TensorP, PeepholeOffset(cfg, d, OutputGate)),
          Ptr(CellState, off), bh, true))]
     else [];
    var copy := [Guarded(Always, Copy(Ptr(CellState, off), bh, Ptr(NewCellState, off)))];
    var hidden := [Guarded(Always, Mul(Ptr(HiddenState, off), Ptr(GateBuf(OutputGate), off), Ptr(NewCellState, off), bh, false))];
    StepFits(cfg, d, e, GateBuf(OutputGate));
    StepFits(cfg, d, e, CellState);
    StepFits(cfg, d, e, NewCellState);
    StepFits(cfg, d, e, HiddenState);
    PeepholeBlockFits(cfg, d, OutputGate);
    ActivationOk(cfg, d, 3 * d, GateBuf(OutputGate), e);
    ActivationOk(cfg, d, 3 * d + 2, NewCellState, e);
    BodyOkAppend(cfg, peephole, Activation(cfg, d, 3 * d, GateBuf(OutputGate)), e);
    BodyOkAppend(cfg, peephole + Activation(cfg, d, 3 * d, GateBuf(OutputGate)), copy, e);
    BodyOkAppend(cfg, peephole + Activation(cfg, d, 3 * d, GateBuf(OutputGate)) + copy,
                 Activation(cfg, d, 3 * d + 2, NewCellState), e);
    BodyOkAppend(cfg, peephole + Activation(cfg, d, 3 * d, GateBuf(OutputGate)) + copy +
                 Activation(cfg, d, 3 * d + 2, NewCellState), hidden, e);
  }

  lemma StepBodyOk(cfg: Config, d: nat, e: Env)
    requires d < cfg.numDirections <= 2 && e.step < cfg.seqLength
    requires 3 * cfg.numDirections <= cfg.numActivations
    ensures BodyOk(cfg, StepBody(cfg, Corrected, d), e)
  {
    var r := Recurrences(cfg, Corrected, d);
    var a1 := Activation(cfg, d, 3 * d + 1, GateBuf(CellGate));
    var p := Peepholes(cfg, Corrected, d);
    var a2 := Activation(cfg, d, 3 * d, GateBuf(InputGate));
    var a3 := if cfg.inputForget == 0 then Activation(cfg, d, 3 * d, GateBuf(ForgetGate)) else [];
    var c := CellUpdate(cfg, Corrected, d);
    var o := OutputUpdate(cfg, d);
    RecurrencesOk(cfg, d, e);
    ActivationOk(cfg, d, 3 * d + 1, GateBuf(CellGate), e);
    PeepholesOk(cfg, d, e);
    ActivationOk(cfg, d, 3 * d, GateBuf(InputGate), e);
    ActivationOk(cfg, d, 3 * d, GateBuf(ForgetGate), e);
    CellUpdateOk(cfg, d, e);
    OutputUpdateOk(cfg, d, e);
    BodyOkAppend(cfg, r, a1, e);
    BodyOkAppend(cfg, r + a1, p, e);
    BodyOkAppend(cfg, r + a1 + p, a2, e);
    BodyOkAppend(cfg, r + a1 + p + a2, a3, e);
    BodyOkAppend(cfg, r + a1 + p + a2 + a3, c, e);
    BodyOkAppend(cfg, r + a1 + p + a2 + a3 + c, o, e);
  }

  lemma DirectionBodyOk(cfg: Config, d: nat)
    requires d < cfg.numDirections <= 2
    requires 3 * cfg.numDirections <= cfg.numActivations
    ensures AllOk(cfg, DirectionBody(cfg, Corrected, d))
  {
    var ff := FeedForwardGemms(cfg, d);
    var bias := if cfg.hasB then BiasAdds(cfg, Corrected, d) else [];
    var loops := [Loop(cfg.seqLength, 1, 1, GateCopies(cfg, d)),
                  Loop(cfg.seqLength, 1, 1, StepBody(cfg, Corrected, d))];
    FeedForwardOk(cfg, d);
    BiasAddsOk(cfg, d);
    GateCopiesOk(cfg, d);
    forall e: Env | InLoop(cfg, cfg.seqLength, 1, 1, e) ensures BodyOk(cfg, StepBody(cfg, Corrected, d), e) {
      StepBodyOk(cfg, d, e);
    }
    assert StmtOk(cfg, loops[0]) && StmtOk(cfg, loops[1]);
    AllOkAppend(cfg, ff, bias);
    AllOkAppend(cfg, ff + bias, loops);
  }

  lemma {:induction false} DirectionsOk(cfg: Config, n: nat)
    requires n <= cfg.numDirections <= 2
    requires 3 * cfg.numDirections <= cfg.numActivations
    ensures AllOk(cfg, Directions(cfg, Corrected, n))
  {
    if n > 0 {
      DirectionsOk(cfg, n - 1);
      DirectionBodyOk(cfg, n - 1);
      AllOkAppend(cfg, Directions(cfg, Corrected, n - 1), DirectionBody(cfg, Corrected, n - 1));
    }
  }

  // ---------------------------------------------------------------------
  // Padding and outputs

  /** Element x .. x + len of (t, d, b) lies inside an [S, D, B, H] buffer. */
  lemma WithinState(cfg: Config, t: nat, d: nat, b: nat, x: nat, len: nat)
    requires t < cfg.seqLength && d < cfg.numDirections && b < cfg.batchSize && x + len <= cfg.hiddenSize
    ensures t * cfg.DBH() + d * cfg.BH() + b * cfg.hiddenSize + x + len <= cfg.SDBH()
  {
    NestFits(b, cfg.batchSize, cfg.hiddenSize, x, len);
    NestFits(d, cfg.numDirections, cfg.BH(), b * cfg.hiddenSize + x, len);
    NestFits(t, cfg.seqLength, cfg.DBH(), d * cfg.BH() + b * cfg.hiddenSize + x, len);
  }

  /** Element x .. x + len of (d, b) lies inside a [D, B, H] buffer. */
  lemma WithinDirections(cfg: Config, d: nat, b: nat, x: nat, len: nat)
    requires d < cfg.numDirections && b < cfg.batchSize && x + len <= cfg.hiddenSize
    ensures d * cfg.BH() + b * cfg.hiddenSize + x + len <= cfg.numDirections * cfg.BH()
  {
    NestFits(b, cfg.batchSize, cfg.hiddenSize, x, len);
    NestFits(d, cfg.numDirections, cfg.BH(), b * cfg.hiddenSize + x, len);
  }

  lemma {:induction false} MaskBodyOk(cfg: Config, n: nat, e: Env)
    requires n <= cfg.numDirections
    requires e.step < cfg.seqLength && e.batch < cfg.batchSize && e.inner < cfg.hiddenSize
    ensures BodyOk(cfg, MaskBody(cfg, Corrected, n), e)
  {
    if n > 0 {
      MaskBodyOk(cfg, n - 1, e);
      MaskIndexIsPosition(cfg, Corrected, n - 1, e);
      BodyOkAppend(cfg, MaskBody(cfg, Corrected, n - 1),
        [Guarded(Padded, Fill(Ptr(CellState, MaskIndex(cfg, Corrected, n - 1)), 1)),
         Guarded(Padded, Fill(Ptr(HiddenState, MaskIndex(cfg, Corrected, n - 1)), 1))], e);
    }
  }

  lemma MaskOk(cfg: Config)
    ensures AllOk(cfg, Mask(cfg, Corrected))
  {
    if cfg.hasSeqLens {
      forall e: Env | InLoop(cfg, cfg.seqLength, cfg.batchSize, cfg.hiddenSize, e)
        ensures BodyOk(cfg, MaskBody(cfg, Corrected, cfg.numDirections), e)
      {
        MaskBodyOk(cfg, cfg.numDirections, e);
      }
    }
  }

  lemma FinalStateTimeMajorOk(cfg: Config, state: Buffer, out: Buffer)
    requires Valid(cfg)
    requires state == HiddenState || state == CellState
    requires out == TensorYh || out == TensorYc
    ensures AllOk(cfg, FinalStateTimeMajor(cfg, Corrected, state, out))
  {
    var s, dd, bh := cfg.seqLength, cfg.numDirections, cfg.BH();
    var r := FinalStateTimeMajor(cfg, Corrected, state, out);
    if !cfg.hasSeqLens {
      WholeCopyFirstOk(cfg, state, out);
      if dd == 2 {
        WholeCopySecondOk(cfg, state, out);
      }
    } else {
      PerBatchFirstOk(cfg, state, out);
      if dd == 2 {
        PerBatchSecondOk(cfg, state, out);
      }
    }
  }

  /** The single copy of direction 0's final state in layout 0. */
  lemma WholeCopyFirstOk(cfg: Config, state: Buffer, out: Buffer)
    requires Valid(cfg) && !cfg.hasSeqLens
    requires state == HiddenState || state == CellState
    requires out == TensorYh || out == TensorYc
    ensures StmtOk(cfg, FinalStateTimeMajor(cfg, Corrected, state, out)[0])
  {
    var s, dd, bh := cfg.seqLength, cfg.numDirections, cfg.BH();
    NestFits(0, dd, bh, 0, bh);
    NestFits(s - 1, s, cfg.DBH(), 0, bh);
  }

  /** The single copy of direction 1's final state in layout 0. */
  lemma WholeCopySecondOk(cfg: Config, state: Buffer, out: Buffer)
    requires Valid(cfg) && !cfg.hasSeqLens && cfg.numDirections == 2
    requires state == HiddenState || state == CellState
    requires out == TensorYh || out == TensorYc
    ensures StmtOk(cfg, FinalStateTimeMajor(cfg, Corrected, state, out)[1])
  {
    var s, dd, bh := cfg.seqLength, cfg.numDirections, cfg.BH();
    NestFits(1, dd, bh, 0, bh);
    NestFits(0, s, cfg.DBH(), bh, bh);
  }

  /** The per-batch copy of direction 0's final state in layout 0. */
  lemma PerBatchFirstOk(cfg: Config, state: Buffer, out: Buffer)
    requires Valid(cfg) && cfg.hasSeqLens
    requires state == HiddenState || state == CellState
    requires out == TensorYh || out == TensorYc
    ensures StmtOk(cfg, FinalStateTimeMajor(cfg, Corrected, state, out)[0])
  {
    var st := FinalStateTimeMajor(cfg, Corrected, state, out)[0];
    forall e: Env | InLoop(cfg, 1, cfg.batchSize, 1, e) ensures BodyOk(cfg, st.body, e) {
      PerBatchFirstFits(cfg, state, out, e);
    }
  }

  /** One iteration of the per-batch copy of direction 0's final state stays inside both buffers. */
  lemma PerBatchFirstFits(cfg: Config, state: Buffer, out: Buffer, e: Env)
    requires Valid(cfg) && cfg.hasSeqLens
    requires state == HiddenState || state == CellState
    requires out == TensorYh || out == TensorYc
    requires InLoop(cfg, 1, cfg.batchSize, 1, e)
    ensures BodyOk(cfg, FinalStateTimeMajor(cfg, Corrected, state, out)[0].body, e)
  {
    var h := cfg.hiddenSize;
    var batchOff := Times(Var(BatchVar), h);
    assert Eval(Var(BatchVar), e) == e.batch;
    assert Eval(batchOff, e) == e.batch * h;
    WithinDirections(cfg, 0, e.batch, 0, h);
    if !cfg.Backward() {
      PerBatchForwardFits(cfg, state, out, e);
    } else {
      WithinState(cfg, 0, 0, e.batch, 0, h);
    }
  }

  /** The forward case of `PerBatchFirstFits`: the copy reads the last valid step of the batch entry. */
  lemma PerBatchForwardFits(cfg: Config, state: Buffer, out: Buffer, e: Env)
    requires Valid(cfg) && cfg.hasSeqLens && !cfg.Backward()
    requires state == HiddenState || state == CellState
    requires out == TensorYh || out == TensorYc
    requires InLoop(cfg, 1, cfg.batchSize, 1, e)
    requires Eval(Times(Var(BatchVar), cfg.hiddenSize), e) == e.batch * cfg.hiddenSize
    requires e.batch * cfg.hiddenSize + cfg.hiddenSize <= Capacity(cfg, out)
    ensures BodyOk(cfg, FinalStateTimeMajor(cfg, Corrected, state, out)[0].body, e)
  {
    var h := cfg.hiddenSize;
    var batchOff := Times(Var(BatchVar), h);
    var src := Ptr(state, Plus(Times(Var(LastVar), cfg.DBH()), batchOff));
    assert FinalStateTimeMajor(cfg, Corrected, state, out)[0] == PerBatch(src, h, Ptr(out, batchOff), cfg.batchSize);
    LastStepFits(cfg, state, e);
  }

  /** Entry batch of the last valid step of direction 0 lies inside a state buffer. */
  lemma LastStepFits(cfg: Config, state: Buffer, e: Env)
    requires state == HiddenState || state == CellState
    requires e.last < cfg.seqLength && e.batch < cfg.batchSize && 1 <= cfg.numDirections
    ensures Fits(cfg, Ptr(state, Plus(Times(Var(LastVar), cfg.DBH()), Times(Var(BatchVar), cfg.hiddenSize))), cfg.hiddenSize, e)
  {
    var h := cfg.hiddenSize;
    assert Eval(Var(LastVar), e) == e.last;
    assert Eval(Var(BatchVar), e) == e.batch;
    assert Eval(Times(Var(LastVar), cfg.DBH()), e) == e.last * cfg.DBH();
    assert Eval(Times(Var(BatchVar), h), e) == e.batch * h;
    WithinState(cfg, e.last, 0, e.batch, 0, h);
  }

  /** The per-batch copy of direction 1's final state in layout 0. */
  lemma PerBatchSecondOk(cfg: Config, state: Buffer, out: Buffer)
    requires Valid(cfg) && cfg.hasSeqLens && cfg.numDirections == 2
    requires state == HiddenState || state == CellState
    requires out == TensorYh || out == TensorYc
    ensures StmtOk(cfg, FinalStateTimeMajor(cfg, Corrected, state, out)[1])
  {
    var h := cfg.hiddenSize;
    var st := FinalStateTimeMajor(cfg, Corrected, state, out)[1];
    var batchOff := Times(Var(BatchVar), h);
    forall e: Env | InLoop(cfg, 1, cfg.batchSize, 1, e) ensures BodyOk(cfg, st.body, e) {
      assert Eval(Var(BatchVar), e) == e.batch;
      assert Eval(batchOff, e) == e.batch * h;
      assert Eval(Plus(Const(cfg.BH()), batchOff), e) == cfg.BH() + e.batch * h;
      WithinState(cfg, 0, 1, e.batch, 0, h);
      WithinDirections(cfg, 1, e.batch, 0, h);
    }
  }

  /** [B, D, H] and [D, B, H] hold the same number of elements. */
  lemma BatchMajorSize(cfg: Config)
    ensures cfg.batchSize * (cfg.numDirections * cfg.hiddenSize) == cfg.numDirections * cfg.BH()
  {
    MulAssoc(cfg.batchSize, cfg.numDirections, cfg.hiddenSize);
    MulAssoc(cfg.numDirections, cfg.batchSize, cfg.hiddenSize);
  }

  lemma FinalStateBatchMajorOk(cfg: Config, state: Buffer, out: Buffer)
    requires Valid(cfg)
    requires state == HiddenState || state == CellState
    requires out == TensorYh || out == TensorYc
    ensures AllOk(cfg, FinalStateBatchMajor(cfg, state, out))
  {
    var r := FinalStateBatchMajor(cfg, state, out);
    forall e: Env | InLoop(cfg, 1, cfg.batchSize, 1, e) ensures BodyOk(cfg, r[0].body, e) {
      BatchMajorCopyFits(cfg, state, out, 0, e);
    }
    assert StmtOk(cfg, r[0]);
    if cfg.numDirections == 2 {
      forall e: Env | InLoop(cfg, 1, cfg.batchSize, 1, e) ensures BodyOk(cfg, r[1].body, e) {
        BatchMajorCopyFits(cfg, state, out, 1, e);
      }
      assert StmtOk(cfg, r[1]);
    }
  }

  /** One iteration of the layout-1 final-state copy of direction k stays inside both buffers. */
  lemma BatchMajorCopyFits(cfg: Config, state: Buffer, out: Buffer, k: nat, e: Env)
    requires Valid(cfg) && k < cfg.numDirections
    requires state == HiddenState || state == CellState
    requires out == TensorYh || out == TensorYc
    requires InLoop(cfg, 1, cfg.batchSize, 1, e)
    ensures |FinalStateBatchMajor(cfg, state, out)| == cfg.numDirections
    ensures BodyOk(cfg, FinalStateBatchMajor(cfg, state, out)[k].body, e)
  {
    FinalStateBatchMajorIsLastStep(cfg, state, out, e);
    BatchMajorSize(cfg);
    var t := if cfg.Backward() then 0 else if cfg.hasSeqLens then e.last else cfg.seqLength - 1;
    if k == 0 {
      StateCopyFits(cfg, FinalStateBatchMajor(cfg, state, out)[0], state, out, t, 0, e);
    } else {
      StateCopyFits(cfg, FinalStateBatchMajor(cfg, state, out)[1], state, out, 0, 1, e);
    }
  }

  /** One iteration of a per-batch copy of the state of (t, d) into a [B, D, H] output stays inside both buffers. */
  lemma StateCopyFits(cfg: Config, st: Stmt, state: Buffer, out: Buffer, t: nat, d: nat, e: Env)
    requires t < cfg.seqLength && d < cfg.numDirections && e.batch < cfg.batchSize
    requires Capacity(cfg, state) == cfg.SDBH() && Capacity(cfg, out) == cfg.numDirections * cfg.BH()
    requires cfg.batchSize * (cfg.numDirections * cfg.hiddenSize) == cfg.numDirections * cfg.BH()
    requires CopiesStateOf(cfg, st, state, out, t, d, e)
    ensures BodyOk(cfg, st.body, e)
  {
    var s, dd, b, h := cfg.seqLength, cfg.numDirections, cfg.batchSize, cfg.hiddenSize;
    Value4(s, dd, b, h, t, d, e.batch, 0);
    Value3(b, dd, h, e.batch, d, 0);
    WithinState(cfg, t, d, e.batch, 0, h);
    NestFits(d, dd, h, 0, h);
    NestFits(e.batch, b, dd * h, d * h, h);
  }

  lemma {:induction false} OutputCopiesAt(cfg: Config, n: nat, k: nat)
    requires k < n
    ensures OutputCopies(cfg, n)[k] == OutputCopy(cfg, k)
  {
    if k < n - 1 {
      OutputCopiesAt(cfg, n - 1, k);
    }
  }

  lemma OutputCopyOk(cfg: Config, d: nat)
    requires d < cfg.numDirections
    ensures StmtOk(cfg, OutputCopy(cfg, d))
  {
    forall e: Env | InLoop(cfg, cfg.seqLength, cfg.batchSize, 1, e)
      ensures BodyOk(cfg, [Guarded(Always, OutputTransposeCopy(cfg, d))], e)
    {
      OutputCopyFits(cfg, d, e);
    }
  }

  /** [B, S, D, H] and [S, D, B, H] hold the same number of elements. */
  lemma OutputSize(cfg: Config)
    ensures cfg.batchSize * (cfg.seqLength * (cfg.numDirections * cfg.hiddenSize)) == cfg.SDBH()
  {
    var s, dd, b, h := cfg.seqLength, cfg.numDirections, cfg.batchSize, cfg.hiddenSize;
    var dh := dd * h;
    BatchMajorSize(cfg);
    MulAssoc(b, s, dh);
    MulAssoc(s, b, dh);
    MulAssoc(s, dd, cfg.BH());
  }

  /** One iteration of the layout-1 Y copy of direction d stays inside both buffers. */
  lemma OutputCopyFits(cfg: Config, d: nat, e: Env)
    requires d < cfg.numDirections
    requires InLoop(cfg, cfg.seqLength, cfg.batchSize, 1, e)
    ensures BodyOk(cfg, [Guarded(Always, OutputTransposeCopy(cfg, d))], e)
  {
    OutputCopySourceFits(cfg, d, e);
    OutputCopyTargetFits(cfg, d, e);
  }

  lemma OutputCopySourceFits(cfg: Config, d: nat, e: Env)
    requires d < cfg.numDirections
    requires InLoop(cfg, cfg.seqLength, cfg.batchSize, 1, e)
    ensures Fits(cfg, OutputTransposeCopy(cfg, d).src, cfg.hiddenSize, e)
  {
    OutputCopySourceBound(cfg, d, e);
  }

  lemma OutputCopyTargetFits(cfg: Config, d: nat, e: Env)
    requires d < cfg.numDirections
    requires InLoop(cfg, cfg.seqLength, cfg.batchSize, 1, e)
    ensures Fits(cfg, OutputTransposeCopy(cfg, d).dst, cfg.hiddenSize, e)
  {
    var s, dd, b, h := cfg.seqLength, cfg.numDirections, cfg.batchSize, cfg.hiddenSize;
    var dh := dd * h;
    EvalOutputCopyTarget(cfg, d, e);
    NestFits(d, dd, h, 0, h);
    NestFits(e.step, s, dh, d * h, h);
    NestFits(e.batch, b, s * dh, e.step * dh + d * h, h);
    OutputSize(cfg);
  }

  lemma OutputsOk(cfg: Config)
    requires Valid(cfg)
    ensures AllOk(cfg, Outputs(cfg, Corrected))
  {
    var yh := if cfg.hasYh then FinalStateTimeMajor(cfg, Corrected, HiddenState, TensorYh) else [];
    var yc := if cfg.hasYc then FinalStateTimeMajor(cfg, Corrected, CellState, TensorYc) else [];
    var y := if cfg.hasY then OutputCopies(cfg, cfg.numDirections) else [];
    var yh1 := if cfg.hasYh then FinalStateBatchMajor(cfg, HiddenState, TensorYh) else [];
    var yc1 := if cfg.hasYc then FinalStateBatchMajor(cfg, CellState, TensorYc) else [];
    if cfg.layout == 0 {
      FinalStateTimeMajorOk(cfg, HiddenState, TensorYh);
      FinalStateTimeMajorOk(cfg, CellState, TensorYc);
      AllOkAppend(cfg, yh, yc);
    } else {
      forall k | 0 <= k < |y| ensures StmtOk(cfg, y[k]) {
        OutputCopiesAt(cfg, cfg.numDirections, k);
        OutputCopyOk(cfg, k);
      }
      FinalStateBatchMajorOk(cfg, HiddenState, TensorYh);
      FinalStateBatchMajorOk(cfg, CellState, TensorYc);
      AllOkAppend(cfg, y, yh1);
      AllOkAppend(cfg, y + yh1, yc1);
    }
  }

  // ---------------------------------------------------------------------
  // The whole program

  /**
   * With the corrected offsets, every operation of the emitted code stays
   * inside its buffers, for every iteration of every loop, and every
   * declaration and alias has the size of the buffer it stands for.
   */
  lemma ProgramInBounds(cfg: Config)
    requires Valid(cfg)
    ensures AllOk(cfg, Program(cfg, Corrected))
  {
    PrologueOk(cfg);
    DirectionsOk(cfg, cfg.numDirections);
    MaskOk(cfg);
    OutputsOk(cfg);
    AllOkAppend(cfg, Mask(cfg, Corrected), Outputs(cfg, Corrected));
    AllOkAppend(cfg, Prologue(cfg), Directions(cfg, Corrected, cfg.numDirections));
    AllOkAppend(cfg, Prologue(cfg) + Directions(cfg, Corrected, cfg.numDirections), Epilogue(cfg, Corrected));
  }

  /**
   * As written, the emitted code is not in bounds: with two directions,
   * three or more steps and a non-empty batch and hidden size, the second
   * iteration of direction 1 reads its previous hidden state past the end
   * of the hidden state buffer.
   */
  lemma ProgramAsWrittenOutOfBounds(cfg: Config)
    requires cfg.numDirections == 2 && cfg.seqLength >= 3 && cfg.BH() > 0
    ensures !AllOk(cfg, Program(cfg, AsWritten))
  {
    var st := Loop(cfg.seqLength, 1, 1, StepBody(cfg, AsWritten, 1));
    StepLoopAsWrittenOutOfBounds(cfg);
    var dirs := Directions(cfg, AsWritten, 2);
    assert dirs == Directions(cfg, AsWritten, 1) + DirectionBody(cfg, AsWritten, 1);
    var db := DirectionBody(cfg, AsWritten, 1);
    assert db[|db| - 1] == st;
    var prog := Program(cfg, AsWritten);
    var pre := Prologue(cfg);
    assert prog == pre + dirs + Epilogue(cfg, AsWritten);
    assert prog[|pre| + |dirs| - 1] == st;
  }

  /**
   * As written, the peephole of a later step reads the initial cell state
   * at the previous step's offset: with one forward direction its third step
   * already reads past the end of that [D, B, H] buffer.
   */
  lemma LaterPeepholeAsWrittenOutOfBounds(cfg: Config)
    requires cfg.numDirections == 1 && !cfg.Backward() && cfg.seqLength >= 3 && cfg.BH() > 0
    ensures LaterPeephole(cfg, AsWritten, 0, InputGate).op.b.buf == InitialCell
    ensures !OpOk(cfg, LaterPeephole(cfg, AsWritten, 0, InputGate).op, AtStep(2))
  {
    EvalPreviousOffset(cfg, AsWritten, 0, AtStep(2));
  }

  /** The time-step loop of direction 1, as written, overruns at its second iteration. */
  lemma StepLoopAsWrittenOutOfBounds(cfg: Config)
    requires cfg.numDirections == 2 && cfg.seqLength >= 3 && cfg.BH() > 0
    ensures !StmtOk(cfg, Loop(cfg.seqLength, 1, 1, StepBody(cfg, AsWritten, 1)))
  {
    var e := AtStep(1);
    var gs := Gates(cfg);
    var body := StepBody(cfg, AsWritten, 1);
    var first := if cfg.hasInitialH then seq(|gs|, k requires 0 <= k < |gs| => FirstRecurrence(cfg, AsWritten, 1, gs[k])) else [];
    var later := seq(|gs|, k requires 0 <= k < |gs| => LaterRecurrence(cfg, AsWritten, 1, gs[k]));
    assert Recurrences(cfg, AsWritten, 1) == first + later;
    var g := later[0];
    assert body[|first|] == g;
    PreviousOffsetAsWrittenOverruns(cfg);
    assert !Fits(cfg, g.op.b, g.op.m * g.op.k, e);
    assert !BodyOk(cfg, body, e);
    assert InLoop(cfg, cfg.seqLength, 1, 1, e);
  }
}
