/**
 * The LSTM operator object: its attributes and tensor names, the shapes it
 * records while initialising against a model's tensor registry, the
 * validation and broadcasting that `Initialize` performs, and `Generate`,
 * which assembles the emitted inference code direction by direction.
 */
module LstmOperator {
  import opened LstmTypes
  import opened LstmShapes
  import opened LstmProgram
  import opened LstmBroadcast
  import LstmSafety

  /** Names of the operator's inputs and outputs; the empty name marks an absent optional tensor. */
  datatype TensorNames = TensorNames(
    x: string, w: string, r: string, b: string, seqLens: string,
    initialH: string, initialC: string, p: string,
    y: string, yh: string, yc: string)

  /** The construction-time type check: only float operators can be built. */
  function TypeCheck(t: ElemType): (o: Outcome)
    ensures o == Pass <==> t == FloatType
    ensures o.Fail? ==> o.error == UnsupportedType
  {
    if t == FloatType then Pass else Fail(UnsupportedType)
  }

  // ---------------------------------------------------------------------
  // Activation names

  /** The first activation name the operator does not implement, if any. */
  function UnsupportedIn(acts: seq<string>): (r: Option<string>)
    ensures r.None? <==> forall k :: 0 <= k < |acts| ==> acts[k] in ActivationNames
    ensures r.Some? ==> r.value in acts && r.value !in ActivationNames
    ensures r.Some? ==> exists k :: 0 <= k < |acts| && acts[k] == r.value &&
                                    forall j :: 0 <= j < k ==> acts[j] in ActivationNames
  {
    if acts == [] then None
    else if acts[0] !in ActivationNames then Some(acts[0])
    else
      var rest := UnsupportedIn(acts[1..]);
      assert rest.Some? ==> exists k :: 0 <= k < |acts| && acts[k] == rest.value &&
                                        forall j :: 0 <= j < k ==> acts[j] in ActivationNames by {
        if rest.Some? {
          var k :| 0 <= k < |acts| - 1 && acts[1..][k] == rest.value &&
                   forall j :: 0 <= j < k ==> acts[1..][j] in ActivationNames;
          assert acts[k + 1] == rest.value;
          assert forall j :: 0 <= j < k + 1 ==> acts[j] in ActivationNames by {
            forall j | 0 <= j < k + 1 ensures acts[j] in ActivationNames {
              if j > 0 { assert acts[j] == acts[1..][j - 1]; }
            }
          }
        }
      }
      assert rest.None? ==> forall k :: 0 <= k < |acts| ==> acts[k] in ActivationNames by {
        if rest.None? {
          forall k | 0 <= k < |acts| ensures acts[k] in ActivationNames {
            if k > 0 { assert acts[k] == acts[1..][k - 1]; }
          }
        }
      }
      rest
  }

  /** The loop over the activation attribute that rejects the first unknown name. */
  method FindUnsupported(acts: seq<string>) returns (r: Option<string>)
    ensures r == UnsupportedIn(acts)
  {
    var i := 0;
    while i < |acts|
      invariant 0 <= i <= |acts|
      invariant UnsupportedIn(acts[i..]) == UnsupportedIn(acts)
    {
      if acts[i] !in ActivationNames {
        return Some(acts[i]);
      }
      assert acts[i..][1..] == acts[i + 1..];
      i := i + 1;
    }
    assert acts[i..] == [];
    return None;
  }

  /** The activations filled in when the attribute is empty: f, g, h per direction. */
  function DefaultActivations(direction: string): (r: seq<string>)
    ensures |r| == 3 * (if direction == "bidirectional" then 2 else 1)
    ensures forall k :: 0 <= k < |r| ==> r[k] == (if k % 3 == 0 then "Sigmoid" else "Tanh")
    ensures forall k :: 0 <= k < |r| ==> r[k] in ActivationNames
  {
    if direction == "bidirectional" then ["Sigmoid", "Tanh", "Tanh", "Sigmoid", "Tanh", "Tanh"]
    else ["Sigmoid", "Tanh", "Tanh"]
  }

  /**
   * The defaults follow the direction attribute, while the emitted code
   * follows W's direction axis: with "forward" or "backward" and two
   * directions in W, direction 1's input gate is activated with slot 3 of a
   * three-name list.
   */
  lemma DefaultActivationsTooFew(cfg: Config, e: Env)
    requires cfg.numDirections == 2 && cfg.direction != "bidirectional"
    requires cfg.numActivations == |DefaultActivations(cfg.direction)|
    ensures !LstmSafety.Valid(cfg)
    ensures !LstmSafety.BodyOk(cfg, Activation(cfg, 1, 3, GateBuf(InputGate)), e)
  {
    var body := Activation(cfg, 1, 3, GateBuf(InputGate));
    assert !LstmSafety.OpOk(cfg, body[|body| - 1].op, e);
  }

  // ---------------------------------------------------------------------
  // Validation

  /** The rank of every registered tensor. */
  function Ranks(t: map<string, TensorInfo>): (r: map<string, nat>)
    ensures forall name :: name in r <==> name in t
  {
    map name | name in t :: |t[name].shape|
  }

  /** Rank of a tensor as `Initialize` sees it once a compact bias has been broadcast to rank 5. */
  function RankAfterBias(t: map<string, TensorInfo>, n: TensorNames, name: string): nat
    requires name in t
  {
    if n.b != "" && name == n.b && |t[name].shape| == 2 then 5 else |t[name].shape|
  }

  /** The ranks the checks after the bias broadcast see. */
  function RanksAfterBias(t: map<string, TensorInfo>, n: TensorNames): (r: map<string, nat>)
    ensures forall name :: name in r <==> name in t
  {
    map name | name in t :: RankAfterBias(t, n, name)
  }

  /** A failed input check names one of `candidates`, missing from the registry or registered with a rank given in `ranks`. */
  predicate Rejects(ranks: map<string, nat>, o: Outcome, candidates: set<string>)
  {
    && o.Fail?
    && (o.error.TensorNotFound? || o.error.WrongRank?)
    && o.error.name in candidates
    && (o.error.TensorNotFound? ==> o.error.name !in ranks)
    && (o.error.WrongRank? ==> o.error.name in ranks && o.error.rank == ranks[o.error.name])
  }

  /** One input check: an absent optional input passes, otherwise the tensor must exist with an accepted rank. */
  function CheckRank(ranks: map<string, nat>, name: string, accepted: set<nat>, optional: bool): (o: Outcome)
    ensures o == Pass <==> (optional && name == "") || (name in ranks && ranks[name] in accepted)
    ensures o.Fail? ==> Rejects(ranks, o, {name})
  {
    if optional && name == "" then Pass
    else if name !in ranks then Fail(TensorNotFound(name))
    else if ranks[name] !in accepted then Fail(WrongRank(name, ranks[name]))
    else Pass
  }

  /** The first failure of two checks performed in order. */
  function AndThen(first: Outcome, second: Outcome): (o: Outcome)
    ensures o == Pass <==> first == Pass && second == Pass
    ensures o.Fail? ==> o == first || o == second
  {
    if first.Fail? then first else second
  }

  /** The input checks, in the order the operator performs them. */
  function CheckInputs(t: map<string, TensorInfo>, n: TensorNames): (o: Outcome)
    ensures o == Pass <==> InputsAccepted(t, n)
    ensures o.Fail? ==> Rejects(Ranks(t), o, {n.x, n.w, n.r, n.b}) ||
                        Rejects(RanksAfterBias(t, n), o, {n.seqLens, n.initialH, n.initialC, n.p})
  {
    var raw, seen := Ranks(t), RanksAfterBias(t, n);
    AndThen(CheckRequired(raw, n),
    AndThen(CheckRank(raw, n.b, {2, 5}, true),
    AndThen(CheckOptional(seen, n),
            CheckRank(seen, n.p, {2, 4}, true))))
  }

  /** The checks of X, W and R, each of which must be present with rank 3. */
  function CheckRequired(ranks: map<string, nat>, n: TensorNames): (o: Outcome)
    ensures o == Pass <==> (n.x in ranks && ranks[n.x] == 3 && n.w in ranks && ranks[n.w] == 3 &&
                            n.r in ranks && ranks[n.r] == 3)
    ensures o.Fail? ==> Rejects(ranks, o, {n.x, n.w, n.r})
  {
    AndThen(CheckRank(ranks, n.x, {3}, false),
    AndThen(CheckRank(ranks, n.w, {3}, false),
            CheckRank(ranks, n.r, {3}, false)))
  }

  /** The checks of the sequence lengths (rank 1) and the initial states (rank 3), when given. */
  function CheckOptional(ranks: map<string, nat>, n: TensorNames): (o: Outcome)
    ensures o == Pass <==> ((n.seqLens != "" ==> n.seqLens in ranks && ranks[n.seqLens] == 1) &&
                            (n.initialH != "" ==> n.initialH in ranks && ranks[n.initialH] == 3) &&
                            (n.initialC != "" ==> n.initialC in ranks && ranks[n.initialC] == 3))
    ensures o.Fail? ==> Rejects(ranks, o, {n.seqLens, n.initialH, n.initialC})
  {
    AndThen(CheckRank(ranks, n.seqLens, {1}, true),
    AndThen(CheckRank(ranks, n.initialH, {3}, true),
            CheckRank(ranks, n.initialC, {3}, true)))
  }

  /** The attribute checks, performed after every input has been checked. */
  function CheckAttributes(acts: seq<string>, direction: string, hidden: nat, gateRows: nat,
                           inputForget: nat, layout: nat): (o: Outcome)
    ensures o == Pass <==>
              && (forall k :: 0 <= k < |acts| ==> acts[k] in ActivationNames)
              && direction in LstmTypes.Directions
              && 4 * hidden == gateRows
              && inputForget <= 1
              && layout <= 1
    ensures o.Fail? && o.error.UnsupportedActivation? ==>
              o.error.activation in acts && o.error.activation !in ActivationNames
    ensures o.Fail? && o.error.InvalidDirection? ==> direction !in LstmTypes.Directions
    ensures o.Fail? && o.error.HiddenSizeMismatch? ==>
              4 * hidden != gateRows && o.error.expected == gateRows / 4
    ensures o.Fail? && o.error.InvalidInputForget? ==> o.error.inputForget == inputForget && inputForget > 1
    ensures o.Fail? && o.error.InvalidLayout? ==> o.error.layout == layout && layout > 1
    ensures o.Fail? ==> o.error.UnsupportedActivation? || o.error.InvalidDirection? ||
                        o.error.HiddenSizeMismatch? || o.error.InvalidInputForget? || o.error.InvalidLayout?
  {
    if UnsupportedIn(acts).Some? then Fail(UnsupportedActivation(UnsupportedIn(acts).value))
    else if direction !in LstmTypes.Directions then Fail(InvalidDirection(direction))
    else if 4 * hidden != gateRows then Fail(HiddenSizeMismatch(gateRows / 4))
    else if inputForget > 1 then Fail(InvalidInputForget(inputForget))
    else if layout > 1 then Fail(InvalidLayout(layout))
    else Pass
  }

  /** The inputs exist with the ranks the operator accepts. */
  predicate InputsAccepted(t: map<string, TensorInfo>, n: TensorNames)
  {
    && n.x in t && |t[n.x].shape| == 3
    && n.w in t && |t[n.w].shape| == 3
    && n.r in t && |t[n.r].shape| == 3
    && (n.b != "" ==> n.b in t && |t[n.b].shape| in {2, 5})
    && (n.seqLens != "" ==> n.seqLens in t && RankAfterBias(t, n, n.seqLens) == 1)
    && (n.initialH != "" ==> n.initialH in t && RankAfterBias(t, n, n.initialH) == 3)
    && (n.initialC != "" ==> n.initialC in t && RankAfterBias(t, n, n.initialC) == 3)
    && (n.p != "" ==> n.p in t && RankAfterBias(t, n, n.p) in {2, 4})
  }

  /** Everything `Initialize` checks, stated as one conjunction. */
  predicate Accepts(t: map<string, TensorInfo>, n: TensorNames, acts: seq<string>,
                    direction: string, hidden: nat, inputForget: nat, layout: nat)
  {
    && InputsAccepted(t, n)
    && (forall k :: 0 <= k < |acts| ==> acts[k] in ActivationNames)
    && direction in LstmTypes.Directions
    && 4 * hidden == t[n.w].shape[1]
    && inputForget <= 1
    && layout <= 1
  }

  /**
   * The outcome of `Initialize`: the first failing check in the order the
   * operator performs them, inputs first and attributes last.
   */
  function Check(t: map<string, TensorInfo>, n: TensorNames, acts: seq<string>,
                 direction: string, hidden: nat, inputForget: nat, layout: nat): (o: Outcome)
    ensures o == Pass <==> Accepts(t, n, acts, direction, hidden, inputForget, layout)
    ensures o.Fail? && o.error.TensorNotFound? ==>
              o.error.name !in t &&
              o.error.name in {n.x, n.w, n.r, n.b, n.seqLens, n.initialH, n.initialC, n.p}
    ensures o.Fail? && o.error.WrongRank? ==>
              o.error.name in t &&
              o.error.rank in {|t[o.error.name].shape|, RankAfterBias(t, n, o.error.name)}
    ensures o.Fail? && o.error.UnsupportedActivation? ==>
              o.error.activation in acts && o.error.activation !in ActivationNames
    ensures o.Fail? && o.error.InvalidDirection? ==> direction !in LstmTypes.Directions
    ensures o.Fail? && o.error.HiddenSizeMismatch? ==>
              n.w in t && |t[n.w].shape| == 3 && 4 * hidden != t[n.w].shape[1] &&
              o.error.expected == t[n.w].shape[1] / 4
    ensures o.Fail? ==> o.error != UnsupportedType
  {
    var inputs := CheckInputs(t, n);
    if inputs.Fail? then inputs
    else CheckAttributes(acts, direction, hidden, t[n.w].shape[1], inputForget, layout)
  }

  // ---------------------------------------------------------------------
  // Registry updates

  /** The registry with a rank-2 bias replaced by its rank-5 broadcast. */
  function WithBroadcastBias(t: map<string, TensorInfo>, name: string,
                             numDirections: nat, seqLength: nat, batch: nat, hidden: nat)
    : (r: map<string, TensorInfo>)
    requires name in t && |t[name].data| >= numDirections * 8 * hidden
    ensures name in r && r[name].shape == [4, numDirections, seqLength, batch, hidden]
    ensures |r[name].data| == MixedRadix.Product(r[name].shape) && r[name].elemType == t[name].elemType
    ensures forall k :: k in r <==> k in t
    ensures forall k :: k in t && k != name ==> r[k] == t[k]
  {
    t[name := TensorInfo(BiasShape(numDirections, seqLength, batch, hidden), t[name].elemType,
                         BroadcastBiasSpec(t[name].data, numDirections, seqLength, batch, hidden))]
  }

  /** Broadcasting a rank-2 bias gives exactly the ranks the later checks expect. */
  lemma RanksOfBroadcastBias(t: map<string, TensorInfo>, n: TensorNames,
                             numDirections: nat, seqLength: nat, batch: nat, hidden: nat)
    requires n.b != "" && n.b in t && |t[n.b].shape| == 2 && |t[n.b].data| >= numDirections * 8 * hidden
    ensures Ranks(WithBroadcastBias(t, n.b, numDirections, seqLength, batch, hidden)) == RanksAfterBias(t, n)
  {
    var r := WithBroadcastBias(t, n.b, numDirections, seqLength, batch, hidden);
    forall name | name in t ensures Ranks(r)[name] == RanksAfterBias(t, n)[name] {
    }
  }

  /** Without a rank-2 bias the ranks are those the later checks expect. */
  lemma RanksWithoutBroadcast(t: map<string, TensorInfo>, n: TensorNames)
    requires n.b == "" || n.b !in t || |t[n.b].shape| != 2
    ensures Ranks(t) == RanksAfterBias(t, n)
  {
  }

  /** The registry with rank-2 peephole weights replaced by their rank-4 broadcast. */
  function WithBroadcastPeephole(t: map<string, TensorInfo>, name: string,
                                 numDirections: nat, batch: nat, hidden: nat)
    : (r: map<string, TensorInfo>)
    requires name in t && |t[name].data| >= numDirections * 3 * hidden
    ensures name in r && r[name].shape == [numDirections, 3, batch, hidden]
    ensures |r[name].data| == MixedRadix.Product(r[name].shape) && r[name].elemType == t[name].elemType
    ensures forall k :: k in r <==> k in t
    ensures forall k :: k in t && k != name ==> r[k] == t[k]
  {
    t[name := TensorInfo(PeepholeShape(numDirections, batch, hidden), t[name].elemType,
                         BroadcastPeepholeSpec(t[name].data, numDirections, batch, hidden))]
  }

  /** The registry with an output added as an intermediate tensor unless it is already known. */
  function WithOutput(t: map<string, TensorInfo>, name: string, shape: seq<nat>, elemType: ElemType)
    : (r: map<string, TensorInfo>)
    ensures forall k :: k in t ==> k in r && r[k] == t[k]
    ensures forall k :: k in r ==> k in t || k == name
    ensures name != "" ==> name in r
    ensures name != "" && name !in t ==> r[name] == TensorInfo(shape, elemType, [])
  {
    if name != "" && name !in t then t[name := TensorInfo(shape, elemType, [])] else t
  }

  /** The initializers hold the values the broadcasts read: 8H per direction for B, 3H for P. */
  predicate InitializersFit(t: map<string, TensorInfo>, n: TensorNames, hidden: nat)
  {
    n.w in t && |t[n.w].shape| >= 1 ==>
      && (n.b != "" && n.b in t && |t[n.b].shape| == 2 ==>
            |t[n.b].data| >= t[n.w].shape[0] * 8 * hidden)
      && (n.p != "" && n.p in t && n.p != n.b && |t[n.p].shape| == 2 ==> |t[n.p].data| >= t[n.w].shape[0] * 3 * hidden)
  }

  /** The registry once a compact bias and compact peephole weights have been broadcast. */
  function Broadcast(t: map<string, TensorInfo>, n: TensorNames, hidden: nat, layout: nat)
    : (r: map<string, TensorInfo>)
    requires InputsAccepted(t, n)
    requires InitializersFit(t, n, hidden)
  {
    var t1 := BiasStage(t, n, hidden, layout);
    PeepholeStillFits(t, n, hidden, layout);
    if n.p != "" && n.p in t1 && |t1[n.p].shape| == 2
    then WithBroadcastPeephole(t1, n.p, t[n.w].shape[0], BatchSize(layout, t[n.x].shape), hidden)
    else t1
  }

  /** The registry once a compact bias has been broadcast. */
  function BiasStage(t: map<string, TensorInfo>, n: TensorNames, hidden: nat, layout: nat)
    : (r: map<string, TensorInfo>)
    requires n.x in t && |t[n.x].shape| == 3 && n.w in t && |t[n.w].shape| == 3
    requires InitializersFit(t, n, hidden)
  {
    if n.b != "" && n.b in t && |t[n.b].shape| == 2
    then WithBroadcastBias(t, n.b, t[n.w].shape[0], SeqLength(layout, t[n.x].shape),
                           BatchSize(layout, t[n.x].shape), hidden)
    else t
  }

  /** The bias broadcast leaves compact peephole weights with the values their broadcast reads. */
  lemma PeepholeStillFits(t: map<string, TensorInfo>, n: TensorNames, hidden: nat, layout: nat)
    requires n.x in t && |t[n.x].shape| == 3 && n.w in t && |t[n.w].shape| == 3
    requires InitializersFit(t, n, hidden)
    ensures var t1 := BiasStage(t, n, hidden, layout);
      n.p != "" && n.p in t1 && |t1[n.p].shape| == 2 ==> |t1[n.p].data| >= t[n.w].shape[0] * 3 * hidden
  {
  }

  /** The registry with the outputs Y, Y_h and Y_c registered. */
  function WithOutputs(t: map<string, TensorInfo>, n: TensorNames, shapes: seq<seq<nat>>, elemType: ElemType)
    : map<string, TensorInfo>
    requires |shapes| == 3
  {
    WithOutput(WithOutput(WithOutput(t, n.y, shapes[0], elemType), n.yh, shapes[1], elemType),
               n.yc, shapes[2], elemType)
  }

  /** The registry after a successful `Initialize`. */
  function Initialized(t: map<string, TensorInfo>, n: TensorNames, hidden: nat, layout: nat)
    : (r: map<string, TensorInfo>)
    requires InputsAccepted(t, n)
    requires InitializersFit(t, n, hidden)
  {
    WithOutputs(Broadcast(t, n, hidden, layout), n,
                ShapeInference(layout, [t[n.x].shape, t[n.w].shape]), t[n.x].elemType)
  }

  /**
   * The broadcasts leave the bias with rank 5 and the peephole weights with
   * rank 4 (the forms the emitted code indexes); a broadcast tensor holds
   * exactly as many values as its new shape, and no other tensor changes.
   */
  lemma BroadcastShapes(t: map<string, TensorInfo>, n: TensorNames, hidden: nat, layout: nat)
    requires InputsAccepted(t, n)
    requires InitializersFit(t, n, hidden)
    ensures var r := Broadcast(t, n, hidden, layout);
      && (forall name :: name in r <==> name in t)
      && (n.b != "" ==> |r[n.b].shape| == 5)
      && (n.b != "" && |t[n.b].shape| == 2 ==>
            r[n.b].shape == [4, t[n.w].shape[0], SeqLength(layout, t[n.x].shape),
                             BatchSize(layout, t[n.x].shape), hidden] &&
            |r[n.b].data| == MixedRadix.Product(r[n.b].shape))
      && (n.p != "" ==> |r[n.p].shape| == 4)
      && (n.p != "" && |t[n.p].shape| == 2 ==>
            r[n.p].shape == [t[n.w].shape[0], 3, BatchSize(layout, t[n.x].shape), hidden] &&
            |r[n.p].data| == MixedRadix.Product(r[n.p].shape))
      && (forall name :: name in t && name != n.b && name != n.p ==> r[name] == t[name])
  {
    var t1 := BiasStage(t, n, hidden, layout);
    if n.p != "" && |t[n.p].shape| == 2 {
      assert n.p != n.b;
    }
    assert n.b != "" ==> n.b in t1 && |t1[n.b].shape| == 5;
  }

  /**
   * After a successful `Initialize` the bias has rank 5 and the peephole
   * weights rank 4, every named output is registered, with the inferred
   * shape when it was new, and every other tensor is left as it was.
   */
  lemma InitializedShapes(t: map<string, TensorInfo>, n: TensorNames, hidden: nat, layout: nat)
    requires InputsAccepted(t, n)
    requires InitializersFit(t, n, hidden)
    ensures var r := Initialized(t, n, hidden, layout);
      && (n.b != "" ==> n.b in r && |r[n.b].shape| == 5)
      && (n.p != "" ==> n.p in r && |r[n.p].shape| == 4)
      && (n.y != "" ==> n.y in r)
      && (n.y != "" && n.y !in t ==> r[n.y].shape == ShapeInference(layout, [t[n.x].shape, t[n.w].shape])[0])
      && (n.yh != "" ==> n.yh in r)
      && (n.yc != "" ==> n.yc in r)
      && (forall name :: name in t && name != n.b && name != n.p ==> name in r && r[name] == t[name])
  {
    BroadcastShapes(t, n, hidden, layout);
    var t2 := Broadcast(t, n, hidden, layout);
    var shapes := ShapeInference(layout, [t[n.x].shape, t[n.w].shape]);
    var elemType := t[n.x].elemType;
    var t3 := WithOutput(t2, n.y, shapes[0], elemType);
    var t4 := WithOutput(t3, n.yh, shapes[1], elemType);
    assert Initialized(t, n, hidden, layout) == WithOutput(t4, n.yc, shapes[2], elemType);
  }

  /** Adds a named output the registry does not know yet as an intermediate tensor. */
  method RegisterOutput(model: Registry, name: string, shape: seq<nat>, elemType: ElemType)
    modifies model
    ensures model.tensors == WithOutput(old(model.tensors), name, shape, elemType)
  {
    if name != "" && name !in model.tensors {
      model.tensors := model.tensors[name := TensorInfo(shape, elemType, [])];
    }
  }

  /** Looks a tensor up in the registry and checks its rank. */
  method ReadShape(model: Registry, name: string, accepted: set<nat>) returns (o: Outcome, shape: seq<nat>)
    ensures o == CheckRank(Ranks(model.tensors), name, accepted, false)
    ensures name in model.tensors ==> shape == model.tensors[name].shape
  {
    if name !in model.tensors {
      return Fail(TensorNotFound(name)), [];
    }
    shape := model.tensors[name].shape;
    if |shape| !in accepted {
      return Fail(WrongRank(name, |shape|)), shape;
    }
    o := Pass;
  }

  // ---------------------------------------------------------------------
  // The operator

  class Operator {
    /** Activation names, three per direction once initialised. */
    var activations: seq<string>
    const clip: real
    const direction: string
    const hiddenSize: nat
    const inputForget: nat
    const layout: nat
    const names: TensorNames

    /** Shapes recorded by `Initialize`. */
    var shapeX: seq<nat>
    var shapeW: seq<nat>
    var shapeR: seq<nat>
    var shapeB: seq<nat>
    var shapeSeqLens: seq<nat>
    var shapeInitialH: seq<nat>
    var shapeInitialC: seq<nat>
    var shapeP: seq<nat>
    var shapeY: seq<nat>
    var shapeYh: seq<nat>
    var shapeYc: seq<nat>

    constructor (activations: seq<string>, clip: real, direction: string, hiddenSize: nat,
                 inputForget: nat, layout: nat, names: TensorNames)
      ensures this.activations == activations && this.clip == clip
      ensures this.direction == direction && this.hiddenSize == hiddenSize
      ensures this.inputForget == inputForget && this.layout == layout && this.names == names
      ensures shapeX == [] && shapeW == []
    {
      this.activations := activations;
      this.clip := clip;
      this.direction := direction;
      this.hiddenSize := hiddenSize;
      this.inputForget := inputForget;
      this.layout := layout;
      this.names := names;
      shapeX, shapeW, shapeR, shapeB, shapeSeqLens := [], [], [], [], [];
      shapeInitialH, shapeInitialC, shapeP, shapeY, shapeYh, shapeYc := [], [], [], [], [], [];
    }

    /** Builds an operator for element type `t`; construction fails for any type but float. */
    static method Create(t: ElemType, activations: seq<string>, clip: real, direction: string,
                         hiddenSize: nat, inputForget: nat, layout: nat, names: TensorNames)
      returns (op: Operator?)
      ensures op == null <==> TypeCheck(t).Fail?
      ensures op != null ==> fresh(op) && op.activations == activations && op.names == names &&
                             op.direction == direction && op.hiddenSize == hiddenSize &&
                             op.clip == clip && op.inputForget == inputForget && op.layout == layout
    {
      if TypeCheck(t).Fail? {
        return null;
      }
      op := new Operator(activations, clip, direction, hiddenSize, inputForget, layout, names);
    }

    /** The shapes `Generate` reads have been recorded. */
    predicate Ready()
      reads this
    {
      |shapeX| == 3 && |shapeW| == 3
    }

    /**
     * Validates the operator against the registry, broadcasts a compact bias
     * or peephole initializer, registers the outputs and fills in the
     * default activations.
     */
    method Initialize(model: Registry) returns (outcome: Outcome)
      requires InitializersFit(model.tensors, names, hiddenSize)
      modifies this, model
      ensures outcome == Check(old(model.tensors), names, old(activations), direction, hiddenSize,
                               inputForget, layout)
      ensures outcome == Pass ==> Ready()
      ensures outcome == Pass ==> shapeX == old(model.tensors)[names.x].shape &&
                                  shapeW == old(model.tensors)[names.w].shape &&
                                  shapeR == old(model.tensors)[names.r].shape
      ensures outcome == Pass ==>
                model.tensors == Initialized(old(model.tensors), names, hiddenSize, layout)
      ensures outcome == Pass ==>
                activations == (if old(activations) == [] then DefaultActivations(direction)
                                else old(activations))
      ensures outcome == Pass ==> forall k :: 0 <= k < |activations| ==> activations[k] in ActivationNames
    {
      ghost var t0 := model.tensors;
      outcome := InitializeInputs(model);
      if outcome.Fail? { return; }
      ghost var t2 := model.tensors;
      assert t2[names.x] == t0[names.x];
      RegisterOutputs(model);
      outcome := InitializeAttributes();
    }

    /** The input half of `Initialize`: every input check, and the two broadcasts. */
    method InitializeInputs(model: Registry) returns (o: Outcome)
      requires InitializersFit(model.tensors, names, hiddenSize)
      modifies this`shapeX, this`shapeW, this`shapeR, this`shapeB, this`shapeSeqLens,
               this`shapeInitialH, this`shapeInitialC, this`shapeP, model
      ensures o == CheckInputs(old(model.tensors), names)
      ensures o == Pass ==> Ready() && InputsAccepted(old(model.tensors), names)
      ensures o == Pass ==> shapeX == old(model.tensors)[names.x].shape &&
                            shapeW == old(model.tensors)[names.w].shape &&
                            shapeR == old(model.tensors)[names.r].shape
      ensures o == Pass ==> model.tensors == Broadcast(old(model.tensors), names, hiddenSize, layout)
    {
      ghost var t0 := model.tensors;
      ghost var seen := RanksAfterBias(t0, names);
      o := InitializeWeights(model);
      if o.Fail? { return; }
      PeepholeStillFits(t0, names, hiddenSize, layout);
      o := InitializeOptional(model);
      if o.Fail? { return; }
      assert CheckOptional(seen, names) == Pass;
      assert CheckRank(seen, names.p, {2, 4}, true) == Pass;
      assert InputsAccepted(t0, names);
    }

    /** Checks the sequence lengths, the initial states and the peepholes, broadcasting compact peepholes. */
    method InitializeOptional(model: Registry) returns (o: Outcome)
      requires Ready()
      requires names.p != "" && names.p in model.tensors && |model.tensors[names.p].shape| == 2 ==>
                 |model.tensors[names.p].data| >= shapeW[0] * 3 * hiddenSize
      modifies this`shapeSeqLens, this`shapeInitialH, this`shapeInitialC, this`shapeP, model
      ensures o == AndThen(CheckOptional(Ranks(old(model.tensors)), names),
                           CheckRank(Ranks(old(model.tensors)), names.p, {2, 4}, true))
      ensures o == Pass ==> (model.tensors ==
                if names.p != "" && names.p in old(model.tensors) && |old(model.tensors)[names.p].shape| == 2
                then WithBroadcastPeephole(old(model.tensors), names.p, shapeW[0], BatchSize(layout, shapeX),
                                           hiddenSize)
                else old(model.tensors))
    {
      o := ReadOptional(model);
      if o.Fail? { return; }
      o := InitializePeephole(model);
    }

    /** Reads X, W and R, then checks the bias and broadcasts it when it is given as [D, 8H]. */
    method InitializeWeights(model: Registry) returns (o: Outcome)
      requires InitializersFit(model.tensors, names, hiddenSize)
      modifies this`shapeX, this`shapeW, this`shapeR, this`shapeB, model
      ensures o == AndThen(CheckRequired(Ranks(old(model.tensors)), names),
                           CheckRank(Ranks(old(model.tensors)), names.b, {2, 5}, true))
      ensures o == Pass ==> Ready() && shapeX == old(model.tensors)[names.x].shape &&
                            shapeW == old(model.tensors)[names.w].shape &&
                            shapeR == old(model.tensors)[names.r].shape
      ensures o == Pass ==> model.tensors == BiasStage(old(model.tensors), names, hiddenSize, layout)
      ensures o == Pass ==> Ranks(model.tensors) == RanksAfterBias(old(model.tensors), names)
    {
      o := ReadRequired(model);
      if o.Fail? { return; }
      o := InitializeBias(model);
    }

    /** Reads the shapes of X, W and R, each of which must be present with rank 3. */
    method ReadRequired(model: Registry) returns (o: Outcome)
      modifies this`shapeX, this`shapeW, this`shapeR
      ensures o == CheckRequired(Ranks(model.tensors), names)
      ensures o == Pass ==> Ready() && shapeX == model.tensors[names.x].shape &&
                            shapeW == model.tensors[names.w].shape &&
                            shapeR == model.tensors[names.r].shape
    {
      o, shapeX := ReadShape(model, names.x, {3});
      if o.Fail? { return; }
      o, shapeW := ReadShape(model, names.w, {3});
      if o.Fail? { return; }
      o, shapeR := ReadShape(model, names.r, {3});
    }

    /** Reads the shapes of the sequence lengths and the initial states, when they are given. */
    method ReadOptional(model: Registry) returns (o: Outcome)
      modifies this`shapeSeqLens, this`shapeInitialH, this`shapeInitialC
      ensures o == CheckOptional(Ranks(model.tensors), names)
      ensures o == Pass && names.seqLens != "" ==> shapeSeqLens == model.tensors[names.seqLens].shape
      ensures o == Pass && names.initialH != "" ==> shapeInitialH == model.tensors[names.initialH].shape
      ensures o == Pass && names.initialC != "" ==> shapeInitialC == model.tensors[names.initialC].shape
    {
      o := Pass;
      if names.seqLens != "" {
        o, shapeSeqLens := ReadShape(model, names.seqLens, {1});
        if o.Fail? { return; }
      }
      if names.initialH != "" {
        o, shapeInitialH := ReadShape(model, names.initialH, {3});
        if o.Fail? { return; }
      }
      if names.initialC != "" {
        o, shapeInitialC := ReadShape(model, names.initialC, {3});
      }
    }

    /** Checks the bias and, when it is given as [D, 8H], replaces it by its [4, D, S, B, H] broadcast. */
    method InitializeBias(model: Registry) returns (o: Outcome)
      requires Ready() && names.w in model.tensors && model.tensors[names.w].shape == shapeW
      requires InitializersFit(model.tensors, names, hiddenSize)
      modifies this`shapeB, model
      ensures o == CheckRank(Ranks(old(model.tensors)), names.b, {2, 5}, true)
      ensures o == Pass && names.b != "" ==> names.b in model.tensors && shapeB == model.tensors[names.b].shape
      ensures o == Pass ==> Ranks(model.tensors) == RanksAfterBias(old(model.tensors), names)
      ensures o == Pass ==> (model.tensors ==
                if names.b != "" && names.b in old(model.tensors) && |old(model.tensors)[names.b].shape| == 2
                then WithBroadcastBias(old(model.tensors), names.b, shapeW[0], SeqLength(layout, shapeX),
                                       BatchSize(layout, shapeX), hiddenSize)
                else old(model.tensors))
    {
      if names.b == "" {
        assert Ranks(model.tensors) == RanksAfterBias(model.tensors, names);
        return Pass;
      }
      o, shapeB := ReadShape(model, names.b, {2, 5});
      if o.Fail? { return; }
      ghost var t0 := model.tensors;
      if |shapeB| == 2 {
        var info := model.tensors[names.b];
        var numDirections := shapeW[0];
        var seqLength := SeqLength(layout, shapeX);
        var batchSize := BatchSize(layout, shapeX);
        var newBias := BroadcastBias(info.data, numDirections, seqLength, batchSize, hiddenSize);
        model.tensors := model.tensors[names.b :=
          TensorInfo(BiasShape(numDirections, seqLength, batchSize, hiddenSize), info.elemType, newBias)];
        shapeB := model.tensors[names.b].shape;
        assert model.tensors == WithBroadcastBias(t0, names.b, numDirections, seqLength, batchSize, hiddenSize);
        RanksOfBroadcastBias(t0, names, numDirections, seqLength, batchSize, hiddenSize);
      } else {
        RanksWithoutBroadcast(t0, names);
      }
    }

    /** Checks the peepholes and, when they are given as [D, 3H], replaces them by their [D, 3, B, H] broadcast. */
    method InitializePeephole(model: Registry) returns (o: Outcome)
      requires Ready()
      requires names.p != "" && names.p in model.tensors && |model.tensors[names.p].shape| == 2 ==>
                 |model.tensors[names.p].data| >= shapeW[0] * 3 * hiddenSize
      modifies this`shapeP, model
      ensures o == CheckRank(Ranks(old(model.tensors)), names.p, {2, 4}, true)
      ensures o == Pass && names.p != "" ==> names.p in model.tensors && shapeP == model.tensors[names.p].shape
      ensures o == Pass ==> (model.tensors ==
                if names.p != "" && names.p in old(model.tensors) && |old(model.tensors)[names.p].shape| == 2
                then WithBroadcastPeephole(old(model.tensors), names.p, shapeW[0], BatchSize(layout, shapeX),
                                           hiddenSize)
                else old(model.tensors))
    {
      if names.p == "" {
        return Pass;
      }
      o, shapeP := ReadShape(model, names.p, {2, 4});
      if o.Fail? { return; }
      if |shapeP| == 2 {
        var info := model.tensors[names.p];
        var numDirections := shapeW[0];
        var batchSize := BatchSize(layout, shapeX);
        var newP := BroadcastPeephole(info.data, numDirections, batchSize, hiddenSize);
        model.tensors := model.tensors[names.p :=
          TensorInfo(PeepholeShape(numDirections, batchSize, hiddenSize), info.elemType, newP)];
        shapeP := model.tensors[names.p].shape;
      }
    }

    /** Records the inferred output shapes and registers every output the model does not know yet. */
    method RegisterOutputs(model: Registry)
      requires Ready() && names.x in model.tensors
      modifies this`shapeY, this`shapeYh, this`shapeYc, model
      ensures model.tensors == WithOutputs(old(model.tensors), names, ShapeInference(layout, [shapeX, shapeW]),
                                           old(model.tensors)[names.x].elemType)
      ensures names.y != "" ==> shapeY == ShapeInference(layout, [shapeX, shapeW])[0]
      ensures names.yh != "" ==> shapeYh == ShapeInference(layout, [shapeX, shapeW])[1]
      ensures names.yc != "" ==> shapeYc == ShapeInference(layout, [shapeX, shapeW])[2]
    {
      var shapes := ShapeInference(layout, [shapeX, shapeW]);
      var elemType := model.tensors[names.x].elemType;
      if names.y != "" {
        shapeY := shapes[0];
      }
      RegisterOutput(model, names.y, shapes[0], elemType);
      if names.yh != "" {
        shapeYh := shapes[1];
      }
      RegisterOutput(model, names.yh, shapes[1], elemType);
      if names.yc != "" {
        shapeYc := shapes[2];
      }
      RegisterOutput(model, names.yc, shapes[2], elemType);
    }

    /** Checks the attributes and fills in the default activations when none were given. */
    method InitializeAttributes() returns (o: Outcome)
      requires |shapeW| == 3
      modifies this`activations
      ensures o == CheckAttributes(old(activations), direction, hiddenSize, shapeW[1], inputForget, layout)
      ensures o == Pass ==>
                activations == (if old(activations) == [] then DefaultActivations(direction)
                                else old(activations))
      ensures o.Fail? ==> activations == old(activations)
    {
      var unsupported := FindUnsupported(activations);
      if unsupported.Some? { return Fail(UnsupportedActivation(unsupported.value)); }
      if direction !in LstmTypes.Directions { return Fail(InvalidDirection(direction)); }
      if 4 * hiddenSize != shapeW[1] { return Fail(HiddenSizeMismatch(shapeW[1] / 4)); }
      if inputForget > 1 { return Fail(InvalidInputForget(inputForget)); }
      if layout > 1 { return Fail(InvalidLayout(layout)); }
      if activations == [] {
        activations := DefaultActivations(direction);
      }
      return Pass;
    }

    /** The dimensions and options the emitted code is generated from. */
    function Cfg(): Config
      reads this
      requires Ready()
    {
      Config(SeqLength(layout, shapeX), BatchSize(layout, shapeX), shapeX[2], shapeW[0], hiddenSize,
             layout, inputForget, direction, clip > 0.0,
             names.b != "", names.seqLens != "", names.initialH != "", names.initialC != "",
             names.p != "", names.y != "", names.yh != "", names.yc != "", |activations|)
    }

    /**
     * The inference code for this operator. `AsWritten` reproduces the
     * operator's offsets; `Corrected` applies the fixes of the findings, and
     * for it every access of the emitted code stays inside its buffer.
     */
    method Generate(v: Variant) returns (program: seq<Stmt>)
      requires Ready()
      ensures program == Program(Cfg(), v)
      ensures v == Corrected && LstmSafety.Valid(Cfg()) ==> LstmSafety.AllOk(Cfg(), program)
    {
      var cfg := Cfg();
      program := Assemble(cfg, v);
      if v == Corrected && LstmSafety.Valid(cfg) {
        LstmSafety.ProgramInBounds(cfg);
      }
    }
  }

  /**
   * Assembles the inference code the way the operator emits it: the input
   * and state set-up, one block per direction, then padding and outputs.
   */
  method Assemble(cfg: Config, v: Variant) returns (program: seq<Stmt>)
    ensures program == Program(cfg, v)
  {
    var blocks := AssembleDirections(cfg, v);
    program := Prologue(cfg) + blocks + Epilogue(cfg, v);
  }

  /** The loop over directions that emits one block per direction. */
  method AssembleDirections(cfg: Config, v: Variant) returns (blocks: seq<Stmt>)
    ensures blocks == LstmProgram.Directions(cfg, v, cfg.numDirections)
  {
    blocks := [];
    var d := 0;
    while d < cfg.numDirections
      invariant 0 <= d <= cfg.numDirections
      invariant blocks == LstmProgram.Directions(cfg, v, d)
    {
      blocks := blocks + DirectionBody(cfg, v, d);
      d := d + 1;
    }
  }
}
