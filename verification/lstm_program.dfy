/**
 * The code that `Generate` (ROperator_LSTM.hxx) emits, as data. Each
 * emitted BLAS call, `std::copy`, clip, activation or element-wise loop is
 * one `Op` over pointers `buffer + offset`, where an offset is the index
 * expression the generator prints; emitted loops are `Loop` statements over
 * the loop counters `seq`, `batch` and an inner counter, and the runtime
 * `if (seq == 0)` / `if (seq >= seq_lens[batch])` tests are guards.
 *
 * Several offsets are printed differently from what the buffer layout
 * needs; `Variant` selects between the offsets as written and corrected
 * ones, so that both programs can be stated and compared.
 */
module LstmProgram {

  /** The four gates, named after the buffers that hold them. */
  datatype Gate = InputGate | ForgetGate | OutputGate | CellGate

  /** Block of a gate in W, R and the broadcast bias: input 0, forget 1, output 2, cell 3. */
  function GateSlot(g: Gate): nat
  {
    match g
    case InputGate => 0
    case ForgetGate => 1
    case OutputGate => 2
    case CellGate => 3
  }

  /**
   * Everything `Generate` reads from the operator: the sizes taken from the
   * shapes of X and W (sequence length and batch size by layout), the
   * attributes, and which optional tensors are named.
   */
  datatype Config = Config(
    seqLength: nat, batchSize: nat, inputSize: nat, numDirections: nat, hiddenSize: nat,
    layout: nat, inputForget: nat, direction: string, clip: bool,
    hasB: bool, hasSeqLens: bool, hasInitialH: bool, hasInitialC: bool, hasP: bool,
    hasY: bool, hasYh: bool, hasYc: bool, numActivations: nat)
  {
    /** Elements of one time step of one direction: batch * hidden. */
    function BH(): nat { batchSize * hiddenSize }
    /** Elements of one time step over all directions. */
    function DBH(): nat { numDirections * BH() }
    /** Elements of one direction of a feed-forward buffer. */
    function SBH(): nat { seqLength * BH() }
    /** Size of the gate, cell and hidden state buffers. */
    function SDBH(): nat { seqLength * DBH() }
    /** Elements of one gate block of the broadcast bias. */
    function DSBH(): nat { numDirections * SBH() }
    /** The direction attribute asks for the reversed time order. */
    predicate Backward() { direction == "backward" }
  }

  /** Offsets as written in the source, or with the corrections of the findings. */
  datatype Variant = AsWritten | Corrected

  /** Every buffer the emitted code reads or writes: the operator's tensors and its scratch buffers. */
  datatype Buffer =
    | TensorX | TensorW | TensorR | TensorB | TensorSeqLens | TensorInitialH | TensorInitialC
    | TensorP | TensorY | TensorYh | TensorYc
    | InputBuf | InitialHidden | InitialCell | FeedForward(ffGate: Gate) | GateBuf(gate: Gate)
    | CellState | NewCellState | HiddenState

  /** Loop counters of the emitted code; `LastVar` is `seq_lens[batch] - 1`. */
  datatype LoopVar = SeqVar | BatchVar | InnerVar | LastVar

  /** An emitted index expression: numbers are printed constants. */
  datatype Expr =
    | Const(n: int)
    | Var(x: LoopVar)
    | Plus(left: Expr, right: Expr)
    | Minus(left: Expr, right: Expr)
    | Times(factor: Expr, k: int)

  /** Values of the loop counters at one iteration. */
  datatype Env = Env(step: nat, batch: nat, inner: nat, last: nat)

  function Lookup(x: LoopVar, v: Env): nat
  {
    match x
    case SeqVar => v.step
    case BatchVar => v.batch
    case InnerVar => v.inner
    case LastVar => v.last
  }

  /** Value of an emitted index expression at one iteration. */
  function Eval(e: Expr, v: Env): int
  {
    match e
    case Const(n) => n
    case Var(x) => Lookup(x, v)
    case Plus(a, b) => Eval(a, v) + Eval(b, v)
    case Minus(a, b) => Eval(a, v) - Eval(b, v)
    case Times(a, k) => Eval(a, v) * k
  }

  /** `buf + off` in the emitted code. */
  datatype Ptr = Ptr(buf: Buffer, off: Expr)

  function At(buf: Buffer, n: int): Ptr { Ptr(buf, Const(n)) }

  /** One emitted operation. */
  datatype Op =
      /** sgemm with transposed A: c (m x n) = b (m x k) * a (n x k)^T, plus c when accumulating. */
    | Gemm(m: nat, n: nat, k: nat, a: Ptr, b: Ptr, c: Ptr, accumulate: bool)
      /** saxpy with unit strides: y[0..n) += x[0..n). */
    | Axpy(n: nat, x: Ptr, y: Ptr)
      /** std::copy(src, src + len, dst). */
    | Copy(src: Ptr, len: nat, dst: Ptr)
      /** std::copy(first, last, dst) with the two ends written independently. */
    | CopyRange(first: Ptr, last: Ptr, dst: Ptr)
      /** Clamp len elements into [-clip, clip]. */
    | Clip(p: Ptr, len: nat)
      /** Apply the activation named by activations[slot] to len elements. */
    | Activate(slot: nat, p: Ptr, len: nat)
      /** dst[i] (+)= a[i] * b[i] for i < len. */
    | Mul(dst: Ptr, a: Ptr, b: Ptr, len: nat, accumulate: bool)
      /** Set len elements to 0. */
    | Fill(p: Ptr, len: nat)

  /** Runtime test around an operation inside an emitted loop. */
  datatype Guard = Always | FirstStep | LaterStep | Padded

  datatype Guarded = Guarded(guard: Guard, op: Op)

  /** One emitted statement. */
  datatype Stmt =
    | Declare(buf: Buffer, size: nat)
    | Alias(alias: Buffer, tensor: Buffer)
    | Call(call: Op)
      /** for seq < seqs, for batch < batches, for inner < inners: the guarded body. */
    | Loop(seqs: nat, batches: nat, inners: nat, body: seq<Guarded>)

  // ---------------------------------------------------------------------
  // Offsets printed by the generator

  /** Gates that have buffers and weights: input, output and cell, and forget unless coupled. */
  function Gates(cfg: Config): seq<Gate>
  {
    [InputGate, OutputGate, CellGate] + (if cfg.inputForget == 0 then [ForgetGate] else [])
  }

  /** Gates with a peephole into the previous cell state: input, and forget unless coupled. */
  function PeepholeGates(cfg: Config): seq<Gate>
  {
    [InputGate] + (if cfg.inputForget == 0 then [ForgetGate] else [])
  }

  /** Offset into W of the input weights of a gate and direction. */
  function WeightOffset(cfg: Config, d: nat, g: Gate): nat
  {
    var hi := cfg.hiddenSize * cfg.inputSize;
    var base := if d == 0 then 0 else 4 * hi;
    match g
    case InputGate => base
    case OutputGate => base + 2 * hi
    case CellGate => base + 3 * hi
    case ForgetGate => base + hi
  }

  /** Offset into R of the recurrence weights of a gate and direction. */
  function RecurrenceOffset(cfg: Config, d: nat, g: Gate): nat
  {
    var hh := cfg.hiddenSize * cfg.hiddenSize;
    var base := if d == 0 then 0 else 4 * hh;
    match g
    case InputGate => base
    case OutputGate => base + 2 * hh
    case CellGate => base + 3 * hh
    case ForgetGate => base + hh
  }

  /** Offset into the broadcast bias of the block added to a gate's feed-forward buffer. */
  function BiasOffset(cfg: Config, v: Variant, d: nat, g: Gate): nat
  {
    var base := if d == 0 then 0 else cfg.SBH();
    match g
    case InputGate => base
    case OutputGate => base + 2 * cfg.DSBH()
    case CellGate => base + 3 * cfg.DSBH()
    case ForgetGate => base + (if v == AsWritten then 3 * cfg.DSBH() else cfg.DSBH())
  }

  /** Offset into the broadcast peephole of a gate's weights (input, forget or output). */
  function PeepholeOffset(cfg: Config, d: nat, g: Gate): nat
  {
    var base := if d == 0 then 0 else 3 * cfg.BH();
    match g
    case InputGate => base
    case ForgetGate => base + cfg.BH()
    case OutputGate => base + 2 * cfg.BH()
    case CellGate => base
  }

  /** `index`: the time step a loop iteration handles. */
  function TimeIndex(cfg: Config, d: nat): Expr
  {
    if cfg.Backward() || d == 1 then Minus(Const(cfg.seqLength as int - 1), Var(SeqVar))
    else Var(SeqVar)
  }

  /** `offset`: start of the current step of direction d in the gate and state buffers. */
  function StepOffset(cfg: Config, d: nat): Expr
  {
    if d == 0 then Times(TimeIndex(cfg, d), cfg.DBH())
    else Plus(Times(TimeIndex(cfg, d), cfg.DBH()), Const(cfg.BH()))
  }

  /** `previous_offset` and `c_offset`: where the state of the previous step is read. */
  function PreviousOffset(cfg: Config, v: Variant, d: nat): Expr
  {
    if d == 0 then
      if cfg.Backward() then Times(Plus(TimeIndex(cfg, d), Const(1)), cfg.DBH())
      else Times(Minus(Var(SeqVar), Const(1)), cfg.DBH())
    else if v == AsWritten then Times(Plus(TimeIndex(cfg, d), Const(1)), cfg.DBH() + cfg.BH())
    else Plus(Times(Plus(TimeIndex(cfg, d), Const(1)), cfg.DBH()), Const(cfg.BH()))
  }

  /** Offset of direction d's initial state in the recurrence and the first cell update. */
  function InitialStateOffset(cfg: Config, v: Variant, d: nat): nat
  {
    if v == AsWritten || d == 0 then 0 else cfg.BH()
  }

  /** Offset of direction d's initial cell state in the first-step peephole. */
  function InitialPeepholeOffset(cfg: Config, d: nat): nat
  {
    if d == 0 then 0 else cfg.BH()
  }

  /** Buffer the peephole of a later step multiplies with. */
  function PeepholeState(v: Variant): Buffer
  {
    if v == AsWritten then InitialCell else CellState
  }

  /** `idx` of the padding loop for direction d. */
  function MaskIndex(cfg: Config, v: Variant, d: nat): Expr
  {
    var bh := Plus(Times(Var(BatchVar), cfg.hiddenSize), Var(InnerVar));
    if v == AsWritten then Plus(Times(Var(SeqVar), cfg.DBH() + d * cfg.BH()), bh)
    else Plus(Plus(Times(Var(SeqVar), cfg.DBH()), Const(d * cfg.BH())), bh)
  }

  // ---------------------------------------------------------------------
  // Prologue: input, initial states and scratch buffers

  /** Body of the layout-1 input loop: input[seq, batch, i] = X[batch, seq, i]. */
  function InputTransposeCopy(cfg: Config): Op
  {
    var s, b, i := cfg.seqLength, cfg.batchSize, cfg.inputSize;
    Copy(Ptr(TensorX, Plus(Plus(Times(Var(BatchVar), s * i), Times(Var(SeqVar), i)), Var(InnerVar))), 1,
         Ptr(InputBuf, Plus(Plus(Times(Var(SeqVar), b * i), Times(Var(BatchVar), i)), Var(InnerVar))))
  }

  /** The input: X itself in layout 0, else a [seq, batch, input] copy of the [batch, seq, input] X. */
  function InputSetup(cfg: Config): seq<Stmt>
  {
    var s, b, i := cfg.seqLength, cfg.batchSize, cfg.inputSize;
    if cfg.layout == 0 then [Alias(InputBuf, TensorX)]
    else [Declare(InputBuf, s * b * i), Loop(s, b, i, [Guarded(Always, InputTransposeCopy(cfg))])]
  }

  /** Body of the layout-1 initial state loop: state[d, batch, h] = tensor[batch, d, h]. */
  function InitialTransposeCopy(cfg: Config, state: Buffer, tensor: Buffer, d: nat): Op
  {
    var h := cfg.hiddenSize;
    Copy(Ptr(tensor, Plus(Plus(Times(Var(BatchVar), cfg.numDirections * h), Const(d * h)), Var(InnerVar))), 1,
         Ptr(state, Plus(Plus(Const(d * cfg.BH()), Times(Var(BatchVar), h)), Var(InnerVar))))
  }

  /** Copy loop of one direction's initial state from [batch, direction, hidden] to [direction, batch, hidden]. */
  function InitialCopy(cfg: Config, state: Buffer, tensor: Buffer, d: nat): Stmt
  {
    Loop(1, cfg.batchSize, cfg.hiddenSize, [Guarded(Always, InitialTransposeCopy(cfg, state, tensor, d))])
  }

  /** Copy loops for directions [0, n). */
  function InitialCopies(cfg: Config, state: Buffer, tensor: Buffer, n: nat): (r: seq<Stmt>)
    ensures |r| == n
  {
    if n == 0 then [] else InitialCopies(cfg, state, tensor, n - 1) + [InitialCopy(cfg, state, tensor, n - 1)]
  }

  /** An initial state: the tensor in layout 0, else a transposed copy; nothing when absent. */
  function InitialSetup(cfg: Config, present: bool, state: Buffer, tensor: Buffer): seq<Stmt>
  {
    if !present then []
    else if cfg.layout == 0 then [Alias(state, tensor)]
    else [Declare(state, cfg.numDirections * cfg.BH())] + InitialCopies(cfg, state, tensor, cfg.numDirections)
  }

  /** Feed-forward, gate, cell state and hidden state buffers. */
  function ScratchSetup(cfg: Config): seq<Stmt>
  {
    var gs := Gates(cfg);
    seq(|gs|, k requires 0 <= k < |gs| => Declare(FeedForward(gs[k]), cfg.SBH())) +
    seq(|gs|, k requires 0 <= k < |gs| => Declare(GateBuf(gs[k]), cfg.SDBH())) +
    [Declare(CellState, cfg.SDBH()), Declare(NewCellState, cfg.SDBH())] +
    (if cfg.layout == 0 && cfg.hasY then [Alias(HiddenState, TensorY)] else [Declare(HiddenState, cfg.SDBH())])
  }

  function Prologue(cfg: Config): seq<Stmt>
  {
    InputSetup(cfg) +
    InitialSetup(cfg, cfg.hasInitialH, InitialHidden, TensorInitialH) +
    InitialSetup(cfg, cfg.hasInitialC, InitialCell, TensorInitialC) +
    ScratchSetup(cfg)
  }

  // ---------------------------------------------------------------------
  // One direction

  /** ff_gate = input * W_gate^T over all time steps at once. */
  function FeedForwardGemm(cfg: Config, d: nat, g: Gate): Stmt
  {
    Call(Gemm(cfg.seqLength * cfg.batchSize, cfg.hiddenSize, cfg.inputSize,
      At(TensorW, WeightOffset(cfg, d, g)), At(InputBuf, 0), At(FeedForward(g), 0), false))
  }

  /** ff_gate += the gate's bias block. */
  function BiasAdd(cfg: Config, v: Variant, d: nat, g: Gate): Stmt
  {
    Call(Axpy(cfg.SBH(), At(TensorB, BiasOffset(cfg, v, d, g)), At(FeedForward(g), 0)))
  }

  /** Body of the loop that moves each time step of ff_gate into direction d's slot of the gate buffer. */
  function GateCopy(cfg: Config, d: nat, g: Gate): Guarded
  {
    var gateOffset := if d == 0 then Times(Var(SeqVar), cfg.DBH())
                      else Plus(Times(Var(SeqVar), cfg.DBH()), Const(cfg.BH()));
    Guarded(Always, Copy(Ptr(FeedForward(g), Times(Var(SeqVar), cfg.BH())), cfg.BH(), Ptr(GateBuf(g), gateOffset)))
  }

  /** gate += h_0 * R_gate^T at the first step. */
  function FirstRecurrence(cfg: Config, v: Variant, d: nat, g: Gate): Guarded
  {
    var h := cfg.hiddenSize;
    Guarded(FirstStep, Gemm(cfg.batchSize, h, h, At(TensorR, RecurrenceOffset(cfg, d, g)),
      At(InitialHidden, InitialStateOffset(cfg, v, d)), Ptr(GateBuf(g), StepOffset(cfg, d)), true))
  }

  /** gate += h_{t-1} * R_gate^T at later steps. */
  function LaterRecurrence(cfg: Config, v: Variant, d: nat, g: Gate): Guarded
  {
    var h := cfg.hiddenSize;
    Guarded(LaterStep, Gemm(cfg.batchSize, h, h, At(TensorR, RecurrenceOffset(cfg, d, g)),
      Ptr(HiddenState, PreviousOffset(cfg, v, d)), Ptr(GateBuf(g), StepOffset(cfg, d)), true))
  }

  /** Optional clip, then activation number `slot`, over the current step of a buffer. */
  function Activation(cfg: Config, d: nat, slot: nat, buf: Buffer): seq<Guarded>
  {
    var p := Ptr(buf, StepOffset(cfg, d));
    (if cfg.clip then [Guarded(Always, Clip(p, cfg.BH()))] else []) +
    [Guarded(Always, Activate(slot, p, cfg.BH()))]
  }

  /** gate += P_gate * c_0 at the first step. */
  function FirstPeephole(cfg: Config, d: nat, g: Gate): Guarded
  {
    Guarded(FirstStep, Mul(Ptr(GateBuf(g), StepOffset(cfg, d)), At(TensorP, PeepholeOffset(cfg, d, g)),
      At(InitialCell, InitialPeepholeOffset(cfg, d)), cfg.BH(), true))
  }

  /** gate += P_gate * c_{t-1} at later steps. */
  function LaterPeephole(cfg: Config, v: Variant, d: nat, g: Gate): Guarded
  {
    Guarded(LaterStep, Mul(Ptr(GateBuf(g), StepOffset(cfg, d)), At(TensorP, PeepholeOffset(cfg, d, g)),
      Ptr(PeepholeState(v), PreviousOffset(cfg, v, d)), cfg.BH(), true))
  }

  function Recurrences(cfg: Config, v: Variant, d: nat): seq<Guarded>
  {
    var gs := Gates(cfg);
    (if cfg.hasInitialH then seq(|gs|, k requires 0 <= k < |gs| => FirstRecurrence(cfg, v, d, gs[k])) else []) +
    seq(|gs|, k requires 0 <= k < |gs| => LaterRecurrence(cfg, v, d, gs[k]))
  }

  function Peepholes(cfg: Config, v: Variant, d: nat): seq<Guarded>
  {
    var ps := PeepholeGates(cfg);
    if !cfg.hasP then []
    else
      (if cfg.hasInitialC then seq(|ps|, k requires 0 <= k < |ps| => FirstPeephole(cfg, d, ps[k])) else []) +
      seq(|ps|, k requires 0 <= k < |ps| => LaterPeephole(cfg, v, d, ps[k]))
  }

  /** c_t = i * g, plus f * c_{t-1} unless the forget gate is coupled. */
  function CellUpdate(cfg: Config, v: Variant, d: nat): seq<Guarded>
  {
    var off := StepOffset(cfg, d);
    var bh := cfg.BH();
    [Guarded(Always, Mul(Ptr(CellState, off), Ptr(GateBuf(InputGate), off), Ptr(GateBuf(CellGate), off), bh, false))] +
    (if cfg.inputForget != 0 then []
     else
       (if cfg.hasInitialC then
          [Guarded(FirstStep, Mul(Ptr(CellState, off), Ptr(GateBuf(ForgetGate), off),
             At(InitialCell, InitialStateOffset(cfg, v, d)), bh, true))]
        else []) +
       [Guarded(LaterStep, Mul(Ptr(CellState, off), Ptr(GateBuf(ForgetGate), off),
          Ptr(CellState, PreviousOffset(cfg, v, d)), bh, true))])
  }

  /** o += P_o * c_t, the output gate's activation, h(c_t) into new_cell_state and h_t = o * h(c_t). */
  function OutputUpdate(cfg: Config, d: nat): seq<Guarded>
  {
    var off := StepOffset(cfg, d);
    var bh := cfg.BH();
    (if cfg.hasP then
       [Guarded(Always, Mul(Ptr(GateBuf(OutputGate), off), At(TensorP, PeepholeOffset(cfg, d, OutputGate)),
          Ptr(CellState, off), bh, true))]
     else []) +
    Activation(cfg, d, 3 * d, GateBuf(OutputGate)) +
    [Guarded(Always, Copy(Ptr(CellState, off), bh, Ptr(NewCellState, off)))] +
    Activation(cfg, d, 3 * d + 2, NewCellState) +
    [Guarded(Always, Mul(Ptr(HiddenState, off), Ptr(GateBuf(OutputGate), off), Ptr(NewCellState, off), bh, false))]
  }

  /** Body of the time-step loop of direction d, in emission order. */
  function StepBody(cfg: Config, v: Variant, d: nat): seq<Guarded>
  {
    Recurrences(cfg, v, d) +
    Activation(cfg, d, 3 * d + 1, GateBuf(CellGate)) +
    Peepholes(cfg, v, d) +
    Activation(cfg, d, 3 * d, GateBuf(InputGate)) +
    (if cfg.inputForget == 0 then Activation(cfg, d, 3 * d, GateBuf(ForgetGate)) else []) +
    CellUpdate(cfg, v, d) +
    OutputUpdate(cfg, d)
  }

  function FeedForwardGemms(cfg: Config, d: nat): seq<Stmt>
  {
    var gs := Gates(cfg);
    seq(|gs|, k requires 0 <= k < |gs| => FeedForwardGemm(cfg, d, gs[k]))
  }

  function BiasAdds(cfg: Config, v: Variant, d: nat): seq<Stmt>
  {
    var gs := Gates(cfg);
    seq(|gs|, k requires 0 <= k < |gs| => BiasAdd(cfg, v, d, gs[k]))
  }

  function GateCopies(cfg: Config, d: nat): seq<Guarded>
  {
    var gs := Gates(cfg);
    seq(|gs|, k requires 0 <= k < |gs| => GateCopy(cfg, d, gs[k]))
  }

  /** Everything emitted for direction d. */
  function DirectionBody(cfg: Config, v: Variant, d: nat): seq<Stmt>
  {
    FeedForwardGemms(cfg, d) +
    (if cfg.hasB then BiasAdds(cfg, v, d) else []) +
    [Loop(cfg.seqLength, 1, 1, GateCopies(cfg, d)),
     Loop(cfg.seqLength, 1, 1, StepBody(cfg, v, d))]
  }

  /** Directions [0, n), in order. */
  function Directions(cfg: Config, v: Variant, n: nat): seq<Stmt>
  {
    if n == 0 then [] else Directions(cfg, v, n - 1) + DirectionBody(cfg, v, n - 1)
  }

  // ---------------------------------------------------------------------
  // Epilogue: padding and outputs

  /** Zeroing of the padded positions of directions [0, n). */
  function MaskBody(cfg: Config, v: Variant, n: nat): seq<Guarded>
  {
    if n == 0 then []
    else
      MaskBody(cfg, v, n - 1) +
      [Guarded(Padded, Fill(Ptr(CellState, MaskIndex(cfg, v, n - 1)), 1)),
       Guarded(Padded, Fill(Ptr(HiddenState, MaskIndex(cfg, v, n - 1)), 1))]
  }

  function Mask(cfg: Config, v: Variant): seq<Stmt>
  {
    if cfg.hasSeqLens then [Loop(cfg.seqLength, cfg.batchSize, cfg.hiddenSize, MaskBody(cfg, v, cfg.numDirections))]
    else []
  }

  /** One copy per batch entry, as a loop over batch. */
  function PerBatch(src: Ptr, len: nat, dst: Ptr, batches: nat): Stmt
  {
    Loop(1, batches, 1, [Guarded(Always, Copy(src, len, dst))])
  }

  /** Copy of the first-direction final state of the backward, full-length case. */
  function BackwardFinalCopy(cfg: Config, v: Variant, state: Buffer, out: Buffer): Op
  {
    if state == CellState && v == AsWritten then CopyRange(At(CellState, 0), At(HiddenState, cfg.BH()), At(out, 0))
    else Copy(At(state, 0), cfg.BH(), At(out, 0))
  }

  /** Final state (hidden or cell) into Y_h or Y_c, in layout 0 ([direction, batch, hidden]). */
  function FinalStateTimeMajor(cfg: Config, v: Variant, state: Buffer, out: Buffer): seq<Stmt>
  {
    var h, bh := cfg.hiddenSize, cfg.BH();
    var batchOff := Times(Var(BatchVar), h);
    if !cfg.hasSeqLens then
      [Call(if cfg.Backward() then BackwardFinalCopy(cfg, v, state, out)
            else Copy(At(state, (cfg.seqLength as int - 1) * cfg.DBH()), bh, At(out, 0)))] +
      (if cfg.numDirections == 2 then [Call(Copy(At(state, bh), bh, At(out, bh)))] else [])
    else
      [if cfg.Backward() then PerBatch(Ptr(state, batchOff), h, Ptr(out, batchOff), cfg.batchSize)
       else PerBatch(Ptr(state, Plus(Times(Var(LastVar), cfg.DBH()), batchOff)), h, Ptr(out, batchOff), cfg.batchSize)] +
      (if cfg.numDirections == 2
       then [PerBatch(Ptr(state, Plus(Const(bh), batchOff)), h, Ptr(out, Plus(Const(bh), batchOff)), cfg.batchSize)]
       else [])
  }

  /** Final state (hidden or cell) into Y_h or Y_c, in layout 1 ([batch, direction, hidden]). */
  function FinalStateBatchMajor(cfg: Config, state: Buffer, out: Buffer): seq<Stmt>
  {
    var h, bh := cfg.hiddenSize, cfg.BH();
    var dh := cfg.numDirections * h;
    var batchOff := Times(Var(BatchVar), h);
    var last := if cfg.hasSeqLens then Var(LastVar) else Const(cfg.seqLength as int - 1);
    [if cfg.Backward() then PerBatch(Ptr(state, batchOff), h, Ptr(out, Times(Var(BatchVar), dh)), cfg.batchSize)
     else PerBatch(Ptr(state, Plus(Times(last, cfg.DBH()), batchOff)), h, Ptr(out, Times(Var(BatchVar), dh)), cfg.batchSize)] +
    (if cfg.numDirections == 2
     then [PerBatch(Ptr(state, Plus(Const(bh), batchOff)), h, Ptr(out, Plus(Times(Var(BatchVar), dh), Const(h))), cfg.batchSize)]
     else [])
  }

  /** Body of the layout-1 Y loop: H elements of step seq, direction d, entry batch into Y[batch, seq, d]. */
  function OutputTransposeCopy(cfg: Config, d: nat): Op
  {
    var h := cfg.hiddenSize;
    var dh := cfg.numDirections * h;
    Copy(Ptr(HiddenState, Plus(Plus(Times(Var(SeqVar), cfg.DBH()), Const(d * cfg.BH())), Times(Var(BatchVar), h))), h,
         Ptr(TensorY, Plus(Plus(Times(Var(BatchVar), cfg.seqLength * dh), Times(Var(SeqVar), dh)), Const(d * h))))
  }

  /** Loop copying direction d of the hidden state into the [batch, seq, direction, hidden] Y. */
  function OutputCopy(cfg: Config, d: nat): Stmt
  {
    Loop(cfg.seqLength, cfg.batchSize, 1, [Guarded(Always, OutputTransposeCopy(cfg, d))])
  }

  /** Copy loops for directions [0, n). */
  function OutputCopies(cfg: Config, n: nat): (r: seq<Stmt>)
    ensures |r| == n
  {
    if n == 0 then [] else OutputCopies(cfg, n - 1) + [OutputCopy(cfg, n - 1)]
  }

  function Outputs(cfg: Config, v: Variant): seq<Stmt>
  {
    if cfg.layout == 0 then
      (if cfg.hasYh then FinalStateTimeMajor(cfg, v, HiddenState, TensorYh) else []) +
      (if cfg.hasYc then FinalStateTimeMajor(cfg, v, CellState, TensorYc) else [])
    else
      (if cfg.hasY then OutputCopies(cfg, cfg.numDirections) else []) +
      (if cfg.hasYh then FinalStateBatchMajor(cfg, HiddenState, TensorYh) else []) +
      (if cfg.hasYc then FinalStateBatchMajor(cfg, CellState, TensorYc) else [])
  }

  function Epilogue(cfg: Config, v: Variant): seq<Stmt>
  {
    Mask(cfg, v) + Outputs(cfg, v)
  }

  /** The whole emitted inference code. */
  function Program(cfg: Config, v: Variant): seq<Stmt>
  {
    Prologue(cfg) + Directions(cfg, v, cfg.numDirections) + Epilogue(cfg, v)
  }
}
