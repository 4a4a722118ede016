/**
 * Values shared by the LSTM operator model: element types, the tensor
 * registry the operator is initialised against, and the errors that
 * initialisation and construction can raise.
 */
module LstmTypes {

  datatype Option<T> = None | Some(value: T)

  /** Element type of a tensor in the model. Only float is supported by the operator. */
  datatype ElemType = FloatType | DoubleType | Int64Type | OtherType(name: string)

  /** What the registry knows about one tensor: its shape, type and (for initializers) its data. */
  datatype TensorInfo = TensorInfo(shape: seq<nat>, elemType: ElemType, data: seq<real>)

  /**
   * The model's tensor registry, reduced to a mutable map from tensor name
   * to tensor information; the operator updates it in place.
   */
  class Registry {
    var tensors: map<string, TensorInfo>

    constructor (tensors: map<string, TensorInfo>)
      ensures this.tensors == tensors
    {
      this.tensors := tensors;
    }
  }

  /** The runtime errors that construction and `Initialize` throw. */
  datatype LstmError =
    | UnsupportedType
    | TensorNotFound(name: string)
    | WrongRank(name: string, rank: nat)
    | UnsupportedActivation(activation: string)
    | InvalidDirection(direction: string)
    | HiddenSizeMismatch(expected: nat)
    | InvalidInputForget(inputForget: nat)
    | InvalidLayout(layout: nat)

  datatype Outcome = Pass | Fail(error: LstmError)

  /** The eleven activation names the operator implements. */
  const ActivationNames: set<string> :=
    {"Relu", "Tanh", "Sigmoid", "Affine", "LeakyRelu", "ThresholdRelu",
     "ScaledTanh", "HardSigmoid", "Elu", "Softsign", "Softplus"}

  /** The three accepted values of the direction attribute. */
  const Directions: set<string> := {"forward", "backward", "bidirectional"}
}
