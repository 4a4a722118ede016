# LSTM operator of the SOFIE inference-code generator, in Dafny

This project models two parts of the fast-inference prototype:

- **The LSTM operator** (`ROperator_LSTM.hxx`):
  - its construction-time type check;
  - its type and shape inference;
  - `Initialize`, which validates the operator against the model's tensor registry, broadcasts a compact bias `[D, 8H]` to `[4, D, S, B, H]` and peephole weights `[D, 3H]` to `[D, 3, B, H]`, registers the outputs and fills in the default activations;
  - the offset and size arithmetic of `Generate`.
- **The transpose prototype** (`op_prototype/transpose.cpp`). It computes row-major strides, inverts an axis permutation, builds the permuted shape and emits a destination-index formula. It also contains the hard-coded `permute` kernel for shape `[1, 2, 3, 4]` and permutation `[3, 2, 1, 0]`.

`Generate` prints C++ text. The model replaces that text by a list of abstract statements (`LstmProgram.Stmt`):

- buffer declarations and aliases;
- loops over (time step, batch entry, inner index);
- guarded operations (`sgemm`, `saxpy`, `std::copy`, clipping, activation, element-wise products, zero fill).

Each operation carries pointers of the form *buffer + offset expression*. The expressions are the index formulas the generator prints, evaluated over the loop counters.

`LstmSafety` then states what it means for the emitted code to stay inside its buffers. It proves this for every configuration with one or two directions, given the tensor sizes, the range of the `sequence_lens` values and the activation count listed under "## Left out".

Five offsets of the generator are wrong. The same applies to the output shapes `Initialize` registers and to the length of the type list `TypeInference` returns. Each of these is modelled twice, selected by `Variant`:

- `AsWritten` reproduces the source, and a lemma exhibits the failure;
- `Corrected` is the evidently intended form, and the safety theorem is proved for it.

Modules:

| file | module | contents |
|---|---|---|
| `mixed_radix.dfy` | `MixedRadix` | products, row-major strides, multi-index ↔ flat index |
| `transpose.dfy` | `Transpose` | permutations, the emitted index formula, the generator's loops, `permute` |
| `lstm_types.dfy` | `LstmTypes` | tensor registry (a class holding a map), errors, outcomes |
| `lstm_shapes.dfy` | `LstmShapes` | `ShapeInference`, `TypeInference` |
| `lstm_broadcast.dfy` | `LstmBroadcast` | the bias and peephole broadcast loops and their reference definitions |
| `lstm_operator.dfy` | `LstmOperator` | the operator class: constructor, `Initialize`, `Generate` |
| `lstm_program.dfy` | `LstmProgram` | the statement records `Generate` emits, with every offset formula |
| `lstm_offsets.dfy` | `LstmOffsets` | each emitted offset against its reference position |
| `lstm_safety.dfy` | `LstmSafety` | every emitted access is in bounds (corrected), and fails (as written) |

## Model

| member | source | states |
|---|---|---|
| LstmOperator.TypeCheck | ROperator_LSTM.hxx:79-84 | construction succeeds exactly for float tensors; otherwise the error is the unsupported-type error |
| LstmOperator.Operator.Create | ROperator_LSTM.hxx:59-85 | no operator is built for a non-float type; otherwise a fresh operator holds exactly the given attributes and names |
| LstmOperator.Operator.constructor | ROperator_LSTM.hxx:59-78 | the fields are the constructor's arguments and no shape is recorded yet |
| LstmShapes.SeqLength | ROperator_LSTM.hxx:311 | sequence length is X's axis 0 in layout 0 and axis 1 in layout 1 |
| LstmShapes.BatchSize | ROperator_LSTM.hxx:312 | batch size is X's axis 1 in layout 0 and axis 0 in layout 1 |
| LstmShapes.ShapeInference | ROperator_LSTM.hxx:92-112 | three shapes; Y has the time, direction and batch axes where the layout places them and W's axis 1 last; Y_h and Y_c equal Y without its time axis |
| LstmShapes.ShapeInferenceSizes | ROperator_LSTM.hxx:92-112 | Y holds S·D·B·H elements and Y_h, Y_c hold D·B·H, in both layouts |
| LstmShapes.ShapeInferenceLayoutsTransposed | ROperator_LSTM.hxx:95-111 | the layout-1 shapes are the layout-0 shapes under the axis permutations [2,0,1,3] and [1,0,2] |
| LstmShapes.OutputShapes | ROperator_LSTM.hxx:248-260 | corrected output shapes: same axes, with hidden axis W[1]/4 |
| LstmShapes.OutputShapesHoldStates | ROperator_LSTM.hxx:248-260 | with W[1] = 4·hidden, the corrected Y, Y_h and Y_c hold exactly S·D·B·hidden and D·B·hidden elements |
| LstmShapes.ShapeInferenceOfWeightsAsWritten | ROperator_LSTM.hxx:248-260 | as written the registered outputs have hidden axis 4·hidden, and four times the elements of the corrected ones |
| LstmShapes.TypeInference | ROperator_LSTM.hxx:87-90 | two outputs, both of X's element type |
| LstmShapes.TypeInferenceAllOutputs | ROperator_LSTM.hxx:87-90 | corrected: every output has X's type, one per shape that shape inference returns |
| LstmShapes.TypeInferenceMissesOutput | ROperator_LSTM.hxx:87-112 | type inference describes fewer outputs than shape inference does |
| LstmOperator.CheckRank | ROperator_LSTM.hxx:116-136 | passes iff the tensor is registered with an accepted rank, or it is an absent optional; a failure names that tensor with its true status |
| LstmOperator.AndThen | ROperator_LSTM.hxx:114-305 | checks run in order: the outcome passes iff both pass, and a failure is the first one |
| LstmOperator.CheckRequired | ROperator_LSTM.hxx:116-136 | passes iff X, W and R are registered with rank 3; a failure names one of them |
| LstmOperator.CheckOptional | ROperator_LSTM.hxx:178-212 | passes iff each given sequence_lens, initial_h, initial_c has rank 1, 3, 3; a failure names one of them |
| LstmOperator.CheckInputs | ROperator_LSTM.hxx:116-245 | passes iff all input checks hold; B and P are checked as rank 2 or 5 and 2 or 4, and the later checks see the broadcast bias |
| LstmOperator.UnsupportedIn | ROperator_LSTM.hxx:266-276 | none iff every activation is one of the eleven supported names; otherwise the first unsupported one |
| LstmOperator.FindUnsupported | ROperator_LSTM.hxx:266-276 | the loop over the activations returns the first unsupported name, or none |
| LstmOperator.CheckAttributes | ROperator_LSTM.hxx:266-297 | passes iff activations, direction, 4·hidden = W[1], input_forget ≤ 1 and layout ≤ 1 all hold; each of the five errors carries the reported value (the unsupported name, the direction, W[1]/4, input_forget, layout) and arises only when its check fails |
| LstmOperator.DefaultActivations | ROperator_LSTM.hxx:298-304 | Sigmoid, Tanh, Tanh per direction, six entries when bidirectional |
| LstmOperator.DefaultActivationsTooFew | ROperator_LSTM.hxx:298-304 | with a direction attribute other than "bidirectional" and two directions in W, the defaults (which the generated code indexes by W's direction axis, :894-906) give fewer than 3·D names, and direction 1's input-gate activation (slot 3) lies outside the list |
| LstmOperator.Check | ROperator_LSTM.hxx:114-305 | Initialize's verdict: passes iff every check holds; each error names a missing or mis-ranked tensor, a bad attribute or the expected hidden size |
| LstmOperator.WithBroadcastBias | ROperator_LSTM.hxx:145-176 | the bias entry becomes shape [4, D, S, B, H] with that many elements and the same type; no other entry changes |
| LstmOperator.RanksOfBroadcastBias | ROperator_LSTM.hxx:141-176 | after broadcasting a rank-2 bias the registry has the ranks the later checks expect |
| LstmOperator.WithBroadcastPeephole | ROperator_LSTM.hxx:221-244 | the peephole entry becomes shape [D, 3, B, H] with that many elements; no other entry changes |
| LstmOperator.WithOutput | ROperator_LSTM.hxx:247-264 | a named output that is not registered yet is added with its inferred shape, X's type and no data; existing entries are kept |
| LstmOperator.PeepholeStillFits | ROperator_LSTM.hxx:137-245 | the bias broadcast leaves the peephole initializer intact |
| LstmOperator.BroadcastShapes | ROperator_LSTM.hxx:137-245 | after the broadcasts B has rank 5 and P rank 4, with the broadcast shapes and sizes; every other tensor is unchanged |
| LstmOperator.InitializedShapes | ROperator_LSTM.hxx:114-305 | after Initialize B has rank 5, P rank 4, Y, Y_h and Y_c are registered (a new Y with the inferred shape), and every other tensor is unchanged |
| LstmOperator.RegisterOutput | ROperator_LSTM.hxx:247-264 | the registry becomes WithOutput of the old registry |
| LstmOperator.ReadShape | ROperator_LSTM.hxx:116-136 | the outcome is CheckRank of the tensor; when registered, its shape is returned |
| LstmOperator.Operator.Initialize | ROperator_LSTM.hxx:114-305 | the outcome is Check of the old registry; on success the shapes are recorded, the registry is Initialized(old) and the activations are the given or default ones, all supported |
| LstmOperator.Operator.InitializeInputs | ROperator_LSTM.hxx:116-245 | the outcome is CheckInputs; on success the registry holds the broadcast B and P |
| LstmOperator.Operator.InitializeWeights | ROperator_LSTM.hxx:116-177 | X, W, R, then B; on success the registry is the bias stage and has the ranks after the bias |
| LstmOperator.Operator.ReadRequired | ROperator_LSTM.hxx:116-136 | the outcome is CheckRequired and records the X, W and R shapes |
| LstmOperator.Operator.InitializeBias | ROperator_LSTM.hxx:137-177 | the outcome is the rank check of B; a rank-2 bias is replaced by its broadcast, otherwise the registry is untouched; the recorded B shape is the registry's new one |
| LstmOperator.Operator.ReadOptional | ROperator_LSTM.hxx:178-212 | the outcome is CheckOptional; on success the shapes of the given sequence_lens, initial_h and initial_c are recorded |
| LstmOperator.Operator.InitializeOptional | ROperator_LSTM.hxx:178-245 | sequence_lens, initial_h, initial_c, then P; a rank-2 P is replaced by its broadcast |
| LstmOperator.Operator.InitializePeephole | ROperator_LSTM.hxx:213-245 | the outcome is the rank check of P; a rank-2 P is replaced by its broadcast, otherwise the registry is untouched; the recorded P shape is the registry's new one |
| LstmOperator.Operator.RegisterOutputs | ROperator_LSTM.hxx:247-264 | Y, Y_h and Y_c are registered with the inferred shapes and X's type, and each named output's inferred shape is recorded |
| LstmOperator.Operator.InitializeAttributes | ROperator_LSTM.hxx:266-304 | the outcome is CheckAttributes; on success empty activations become the defaults; on failure they are unchanged |
| LstmBroadcast.BroadcastBiasSpec | ROperator_LSTM.hxx:145-174 | reference broadcast: cell (g, d, s, b, h) is orig[d·8H + g·H + h] + orig[d·8H + g·H + h + 4H]; length 4·D·S·B·H |
| LstmBroadcast.BiasTargetIndexIsValue | ROperator_LSTM.hxx:163-165 | the printed bias_offset is the row-major position of (g, d, s, b, 0) in [4, D, S, B, H] |
| LstmBroadcast.BroadcastBiasCell | ROperator_LSTM.hxx:157-166 | every cell of the broadcast bias holds the sum of the matching W and R biases |
| LstmBroadcast.BroadcastBiasReplicated | ROperator_LSTM.hxx:161-167 | the broadcast value does not depend on the time step or batch entry |
| LstmBroadcast.BiasTargetIndexInjective | ROperator_LSTM.hxx:154-170 | no two (g, d, s, b, h) write the same cell |
| LstmBroadcast.BiasTargetIndexCovers | ROperator_LSTM.hxx:154-170 | every cell of the new bias is written |
| LstmBroadcast.GateBiasSum | ROperator_LSTM.hxx:155-160 | sum[h] = orig[offset + h] + orig[offset + h + 4H] for the gate's and direction's offset |
| LstmBroadcast.CopyBiasSlots | ROperator_LSTM.hxx:161-168 | the seq/batch loops extend the correctly filled prefix of new_bias by one direction block |
| LstmBroadcast.BroadcastBias | ROperator_LSTM.hxx:145-174 | the gate/direction/seq/batch loops produce exactly BroadcastBiasSpec |
| LstmBroadcast.BroadcastPeepholeSpec | ROperator_LSTM.hxx:221-240 | reference broadcast: cell (d, g, b, h) is orig[d·3H + g·H + h]; length D·3·B·H |
| LstmBroadcast.PeepholeTargetIndexIsValue | ROperator_LSTM.hxx:231-234 | the printed offset is the row-major position of (d, g, b, 0) in [D, 3, B, H] |
| LstmBroadcast.BroadcastPeepholeCell | ROperator_LSTM.hxx:229-237 | every cell of the broadcast peephole holds its gate's weight |
| LstmBroadcast.PeepholeTargetIndexInjective | ROperator_LSTM.hxx:229-239 | no two (d, g, b, h) write the same cell |
| LstmBroadcast.PeepholeTargetIndexCovers | ROperator_LSTM.hxx:229-239 | every cell of the new peephole array is written |
| LstmBroadcast.GatePeephole | ROperator_LSTM.hxx:231-236 | the copied block is orig[p_offset .. p_offset + H) |
| LstmBroadcast.BroadcastPeephole | ROperator_LSTM.hxx:221-240 | the direction/gate/batch loops produce exactly BroadcastPeepholeSpec |
| LstmOperator.Operator.Generate | ROperator_LSTM.hxx:307-1481 | the emitted program is Program(Cfg(), v); with the corrections, one or two directions and three activation names per direction, every access is in bounds, given the input and output tensor sizes and the [1, S] range of the sequence_lens values listed under Left out |
| LstmOperator.Assemble | ROperator_LSTM.hxx:307-1481 | the statements are collected in emission order: prologue, directions, padding, outputs |
| LstmOperator.AssembleDirections | ROperator_LSTM.hxx:438-1278 | the loop over directions yields the blocks of directions 0 .. D-1 in order |
| LstmProgram.InitialCopies | ROperator_LSTM.hxx:348-382 | one layout-1 copy loop per direction |
| LstmProgram.OutputCopies | ROperator_LSTM.hxx:1392-1406 | one layout-1 Y copy loop per direction |
| LstmOffsets.EvalStepOffset | ROperator_LSTM.hxx:586-599 | index is seq, or S-1-seq for backward and direction 1; offset is index·DBH, plus BH for direction 1 |
| LstmOffsets.TimeIndexIsInvolution | ROperator_LSTM.hxx:586-591 | the time index stays below S and maps back to the loop counter |
| LstmOffsets.StepOffsetIsPosition | ROperator_LSTM.hxx:593-599 | offset is the position of (index, d, 0, 0) in the [S, D, B, H] state, with room for B·H elements |
| LstmOffsets.EvalPreviousOffset | ROperator_LSTM.hxx:656-724 | the printed previous_offset, including (index+1)·(DBH+BH) for direction 1 as written |
| LstmOffsets.PreviousIsPriorStep | ROperator_LSTM.hxx:656-724 | corrected: the recurrence and cell update read the state of the previous step of the same direction |
| LstmOffsets.PreviousOffsetAsWrittenOverruns | ROperator_LSTM.hxx:692-693 | as written, for D = 2 and S ≥ 3, direction 1 at step 1 reads the wrong block, past the end of the state |
| LstmOffsets.WeightOffsetIsBlock | ROperator_LSTM.hxx:439-501 | each gate's feed-forward weight block is block 4d + slot of W, inside W |
| LstmOffsets.RecurrenceOffsetIsBlock | ROperator_LSTM.hxx:601-724 | each gate's recurrence block is block 4d + slot of R, inside R |
| LstmOffsets.BiasOffsetIsBlock | ROperator_LSTM.hxx:502-560 | corrected bias offsets address the gate's and direction's block of the broadcast bias |
| LstmOffsets.BiasAddReadsGateBias | ROperator_LSTM.hxx:502-560 | corrected: each bias add reads the W and R bias sum of its own gate |
| LstmOffsets.ForgetBiasAsWrittenIsCellBias | ROperator_LSTM.hxx:545-554 | as written, the forget-gate add reads block 3, the cell gate's bias, not its own |
| LstmOffsets.PeepholeReadsGateWeights | ROperator_LSTM.hxx:808-881 | peephole offsets read the broadcast weights of the right gate and direction |
| LstmOffsets.LaterPeepholeReadsPreviousCell | ROperator_LSTM.hxx:843-881 | corrected: a later step's peephole multiplies with the cell state of the previous step |
| LstmOffsets.InitialStateOffsetIsDirectionBlock | ROperator_LSTM.hxx:628-650 | corrected: direction d's first step reads block d of initial_h and initial_c |
| LstmOffsets.InitialStateAsWrittenIsDirectionZero | ROperator_LSTM.hxx:628-650 | as written, direction 1's first step reads direction 0's initial state |
| LstmOffsets.EvalMaskIndex | ROperator_LSTM.hxx:1287-1289 | the printed idx, seq·(DBH + d·BH) + batch·H + h as written |
| LstmOffsets.MaskIndexIsPosition | ROperator_LSTM.hxx:1280-1298 | corrected: idx is the position of (seq, d, batch, h) in the state, inside it |
| LstmOffsets.MaskIndexAsWrittenOverruns | ROperator_LSTM.hxx:1287-1289 | as written, direction 1 at the last step indexes past the end of the state |
| LstmOffsets.FinalStateTimeMajorIsLastStep | ROperator_LSTM.hxx:1301-1390 | layout 0 without sequence_lens: Y_h and Y_c receive each direction's last-step state at [d, 0, 0] |
| LstmOffsets.FinalStateTimeMajorSeqLensIsLastStep | ROperator_LSTM.hxx:1316-1389 | layout 0 with sequence_lens: for each batch entry Y_h and Y_c receive step seq_lens[b]-1 of the forward direction (step 0 when backward) and step 0 of direction 1, at [d, b, 0] |
| LstmOffsets.BackwardCellCopyAsWrittenMixesBuffers | ROperator_LSTM.hxx:1350-1352 | as written, the backward Y_c copy's range starts in cell_state and ends in hidden_state |
| LstmOffsets.FinalStateBatchMajorIsLastStep | ROperator_LSTM.hxx:1407-1476 | layout 1: for each batch entry Y_h and Y_c receive the last (or sequence_lens-1) step of each direction at [b, d, 0] |
| LstmOffsets.InputCopyIsTranspose | ROperator_LSTM.hxx:316-335 | the layout-1 input copy is the transpose of X under axes [1, 0, 2] |
| LstmOffsets.InitialCopyIsTranspose | ROperator_LSTM.hxx:336-385 | the layout-1 initial-state copies are the transpose under axes [1, 0, 2] |
| LstmOffsets.OutputCopyIsTranspose | ROperator_LSTM.hxx:1392-1406 | the layout-1 Y copy is the transpose of the state under axes [2, 0, 1, 3] |
| LstmSafety.PrologueOk | ROperator_LSTM.hxx:311-436 | every declared buffer has its capacity; the input and initial-state copies are in bounds |
| LstmSafety.DirectionsOk | ROperator_LSTM.hxx:438-1278 | corrected: every gemm, saxpy, copy, clip, activation and product of both directions is in bounds at every step |
| LstmSafety.MaskOk | ROperator_LSTM.hxx:1280-1298 | corrected: padding writes stay inside cell_state and hidden_state |
| LstmSafety.OutputsOk | ROperator_LSTM.hxx:1299-1476 | corrected: every output copy is in bounds in both layouts, for Y of S·D·B·H and Y_h, Y_c of D·B·H values and sequence_lens values in [1, S] (hypotheses, see Left out) |
| LstmSafety.ProgramInBounds | ROperator_LSTM.hxx:307-1481 | corrected, D ∈ {1, 2}, S ≥ 1, at least 3·D activation names: every access of the whole emitted program is in bounds, for the input and output tensor sizes in `Capacity` and sequence_lens values in [1, S] |
| LstmSafety.ProgramAsWrittenOutOfBounds | ROperator_LSTM.hxx:692-693 | as written, for D = 2, S ≥ 3 and B·H > 0, the emitted program makes an out-of-bounds access |
| LstmSafety.StepLoopAsWrittenOutOfBounds | ROperator_LSTM.hxx:656-724 | as written, direction 1's step loop reads outside hidden_state |
| LstmSafety.LaterPeepholeAsWrittenOutOfBounds | ROperator_LSTM.hxx:843-862 | as written, a later peephole reads initial_cell_state at the previous step's offset, past its end by step 2 |
| MixedRadix.CoordsOfValue | ROperator_LSTM.hxx:163-165 | decoding the flat position of an in-range multi-index gives the multi-index back |
| MixedRadix.ValueOfCoords | op_prototype/transpose.cpp:55 | encoding the decoded multi-index of a flat position gives the position back |
| MixedRadix.ValueAsSum | op_prototype/transpose.cpp:55 | a flat position is the sum of coordinate times stride |
| Transpose.Inverse | op_prototype/transpose.cpp:32-36 | reference inverse of a permutation |
| Transpose.InverseIsPermutation | op_prototype/transpose.cpp:32-36 | the inverse is a permutation and undoes perm in both directions |
| Transpose.SumApply | op_prototype/transpose.cpp:54-57 | permuting summands keeps the sum |
| Transpose.ProductApply | op_prototype/transpose.cpp:38-45 | permuting axes keeps the element count |
| Transpose.IndexTerms | op_prototype/transpose.cpp:54-57 | one (sizeofindex[i], shape[i], new_sizeofindex[index_goto[i]]) term per original axis |
| Transpose.EmittedFormulaIsDest | op_prototype/transpose.cpp:54-57 | the emitted sum of id / stride % extent · new stride equals Dest for every id |
| Transpose.DestInRange | op_prototype/transpose.cpp:54-57 | every destination lies below length |
| Transpose.DestInjective | op_prototype/transpose.cpp:54-57 | distinct elements go to distinct destinations |
| Transpose.DestSurjective | op_prototype/transpose.cpp:54-57 | every output position receives an element |
| Transpose.DestRoundTrip | op_prototype/transpose.cpp:32-57 | transposing with perm and then transposing the result with the inverse permutation returns every element to its position |
| Transpose.IdentityDest | op_prototype/transpose.cpp:54-57 | the identity permutation moves nothing |
| Transpose.RowMajorStrides | op_prototype/transpose.cpp:19-24 | sizeofindex[i] is the product of shape[i+1..] and length the product of shape |
| Transpose.InvertPermutation | op_prototype/transpose.cpp:32-36 | index_goto[perm[i]] = i, and index_goto is the inverse permutation |
| Transpose.PermuteShape | op_prototype/transpose.cpp:38-45 | new_shape[i] = shape[perm[i]], new_sizeofindex holds its strides, t equals length |
| Transpose.EmitIndexTerms | op_prototype/transpose.cpp:54-57 | term i is (sizeofindex[i], shape[i], new_sizeofindex[index_goto[i]]) |
| Transpose.GeneratePermute | op_prototype/transpose.cpp:14-60 | the generator's length and terms are Product(shape) and IndexTerms; every emitted destination is below length |
| Transpose.EmittedFormulaInRange | op_prototype/transpose.cpp:54-57 | for every id < length the emitted destination is below length |
| Transpose.EmittedFormulaInjective | op_prototype/transpose.cpp:54-57 | the emitted formula sends distinct ids to distinct destinations |
| Transpose.PrototypeCoefficients | op_prototype/transpose.cpp:14-45 | for shape [1,2,3,4] and perm [3,2,1,0] the terms are (24,1,1), (12,2,1), (4,3,2), (1,4,6) |
| Transpose.HardCodedMatchesGenerator | op_prototype/transpose.cpp:8 | the hard-coded formula of permute equals what the generator emits |
| Transpose.HardCodedBijective | op_prototype/transpose.cpp:6-10 | the hard-coded formula maps 0..23 one to one onto 0..23 |
| Transpose.Permute | op_prototype/transpose.cpp:6-10 | output[dest(id)] = input[id] for every id < 24 |

## Left out

- Floating-point arithmetic is not modelled: the BLAS calls, activation functions, clipping values and activation alpha/beta. Operations are records naming their buffers, offsets and lengths. An activation is identified only by its slot in the activation list.
- The printed text is left out: operator names, `Clean_name`, tab layout. So are the two emitted `c_offset` lines that lack their terminating semicolon (ROperator_LSTM.hxx:846-850, 864-865), a syntax matter the model cannot express.
- `size_t` and `int` wrap-around in the generator's offset arithmetic is not modelled. All sizes are unbounded naturals.
- The values of `sequence_lens` are not modelled. The padding guard ranges over any step below S. So does the step `seq_lens[batch] - 1` that the per-batch Y_h/Y_c copies read, in layout 0 (ROperator_LSTM.hxx:1326, :1371) and in layout 1 (:1421, :1456).
- The registry (`RModel`) is a map from tensor name to shape, type and data, held in a `Registry` object. Its other services are not part of this model.
- `Initialize` throws on the first failed check. The model returns that error as an `Outcome`. When the outcome is a failure, `Operator.Initialize` does not specify what was written to the registry before the failing check.
- LstmOperator.Operator.Initialize: requires `InitializersFit`, i.e. that B and P initializers given in compact form hold at least D·8H and D·3H values. The source reads that many floats without checking.
- LstmOperator.Operator.Initialize: registers the as-written output shapes of `ShapeInference`, which are four times too large (see Findings). `LstmShapes.OutputShapes` gives the corrected shapes.
- LstmSafety.ProgramInBounds: requires D ≤ 2 and S ≥ 1. The source does not check that W's direction axis is 1 or 2. For D > 2 the direction loop (ROperator_LSTM.hxx:438) still runs over every direction, but every direction from 1 on takes the direction-1 branch. Each such direction uses direction 1's weight, recurrence, bias and peephole slices and rewrites direction 1's slice of the state. Directions from 2 on also run forward in time (:587). Only the padding loop (:1285) indexes by the direction number. The theorem is proved only for D ≤ 2, where the direction-1 offsets are direction d's own block. An empty sequence is not handled either.
- LstmSafety.ProgramInBounds: takes the sizes of the operator's input and output tensors from `Capacity`, not from the registry:
  - R holds D·4H·H values;
  - W holds D·4H·I with I = X[2], so W[2] = X[2];
  - initial_h and initial_c hold D·B·H;
  - a rank-5 B holds 4·D·S·B·H;
  - a rank-4 P holds D·3·B·H;
  - sequence_lens holds B;
  - Y holds S·D·B·H;
  - Y_h and Y_c hold D·B·H.

  `Initialize` checks only the ranks and 4H = W[1] (ROperator_LSTM.hxx:114-305). These sizes are therefore hypotheses of the theorem, not consequences of the checks. `Initialize` registers an output only when no tensor of that name exists yet (:249, :255, :261). An existing Y, Y_h or Y_c keeps its own shape, and nothing checks it. The shapes `Initialize` does register are the as-written ones with hidden axis 4H (see Findings). The declaration of hidden_state as an alias of Y (`Alias(HiddenState, TensorY)`) is in bounds only because of the assumed size of Y.
- LstmSafety.ProgramInBounds: assumes every value of `sequence_lens` lies in [1, S]: `InLoop` lets the step `last` range only over [0, S). The source does not check the values. A value of 0 makes the emitted `size_t seq = seq_lens[batch] - 1` (ROperator_LSTM.hxx:1326, :1371, :1421, :1456) wrap around, and a value above S makes the copy read past the end of the state buffer.
- LstmSafety.OutputsOk: proves the output copies in bounds only under the sizes of Y, Y_h and Y_c that `Capacity` assumes (Y holds S·D·B·H, Y_h and Y_c hold D·B·H) and under the [1, S] range of the `sequence_lens` values. Neither is checked by the source (see the two LstmSafety.ProgramInBounds lines above).
- LstmSafety.ProgramInBounds: requires at least three activation names per direction (`Valid`). `Initialize` does not ensure this. The defaults follow the direction attribute: three names unless it is "bidirectional" (ROperator_LSTM.hxx:298-304). The emitted code instead indexes the list by W's direction axis (:737, :894). A caller-supplied list of any length passes the checks. `LstmOperator.DefaultActivationsTooFew` exhibits "forward" with D = 2.
- LstmOperator.Operator.Generate: its bounds guarantee rests on the same assumed input and output tensor sizes, `sequence_lens` range and activation count as LstmSafety.ProgramInBounds.
- The `main` of the transpose prototype (reading inputs, printing the generated text and the permuted values) is I/O and left out.

## Findings

| source | as written | input that shows it | evidently intended | confidence | as-written member | corrected member |
|---|---|---|---|---|---|---|
| ROperator_LSTM.hxx:545, 552-553 | forget-gate bias offset is 3·D·S·B·H (+S·B·H), the cell gate's block; the forget gate is slot 1 everywhere else, e.g. its weights at H·input_size (ROperator_LSTM.hxx:485-495) | any D, S, B, H ≥ 1 with a bias and input_forget = 0 | D·S·B·H (+ S·B·H for direction 1) | not executed | LstmOffsets.ForgetBiasAsWrittenIsCellBias | LstmOffsets.BiasAddReadsGateBias |
| ROperator_LSTM.hxx:692-693, 864-865, 1076-1077 | direction 1 `previous_offset = (index + 1) * ` streams D·B·H + B·H as one number, giving (index+1)·(DBH+BH) | D = 2, S = 3, B·H > 0: step 1 of direction 1 reads past the end of hidden_state | (index+1)·DBH + BH | not executed | LstmSafety.ProgramAsWrittenOutOfBounds | LstmOffsets.PreviousIsPriorStep |
| ROperator_LSTM.hxx:1287-1289 | padding `idx = seq * ` streams D·B·H + d·B·H as one number, giving seq·(DBH + d·BH) | D = 2, S = 3, B·H > 0, direction 1, seq = 2 | seq·DBH + d·BH + batch·H + h | not executed | LstmOffsets.MaskIndexAsWrittenOverruns | LstmOffsets.MaskIndexIsPosition |
| ROperator_LSTM.hxx:628-650, 1060-1062 | direction 1's first step multiplies R with initial_hidden_state from offset 0, and its first cell update reads initial_cell_state[i], i.e. direction 0's initial state | D = 2 with initial_h (or initial_c) given | initial_hidden_state + B·H and initial_cell_state[i + B·H] | not executed | LstmOffsets.InitialStateAsWrittenIsDirectionZero | LstmOffsets.InitialStateOffsetIsDirectionBlock |
| ROperator_LSTM.hxx:843-870 | a later step's peephole multiplies with initial_cell_state[i + c_offset] rather than cell_state | D = 1, forward, S = 3, B·H > 0, with P and initial_c: step 2 reads past initial_cell_state (without initial_c the emitted code names an undeclared initial_cell_state, ROperator_LSTM.hxx:361) | cell_state[i + c_offset] | not executed | LstmSafety.LaterPeepholeAsWrittenOutOfBounds | LstmOffsets.LaterPeepholeReadsPreviousCell |
| ROperator_LSTM.hxx:1350-1352 | backward Y_c copy is std::copy(cell_state, hidden_state + B·H, Y_c), a range over two arrays | direction "backward", layout 0, Y_c requested, no sequence_lens | std::copy(cell_state, cell_state + B·H, Y_c) | not executed | LstmOffsets.BackwardCellCopyAsWrittenMixesBuffers | LstmOffsets.FinalStateTimeMajorIsLastStep |
| ROperator_LSTM.hxx:87-90 | TypeInference returns two types for three outputs | any input type | one type per output: Y, Y_h, Y_c | not executed | LstmShapes.TypeInferenceMissesOutput | LstmShapes.TypeInferenceAllOutputs |
| ROperator_LSTM.hxx:94, 248-260 | output shapes are inferred from [X, W], whose axis 1 is 4·hidden, so Y is [S, D, B, 4H] | any hidden ≥ 1 | hidden axis W[1]/4 = hidden | not executed | LstmShapes.ShapeInferenceOfWeightsAsWritten | LstmShapes.OutputShapesHoldStates |
