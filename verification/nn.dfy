/** Shape-level contract of the autodiff engine `nn` that the models are built on.

    The engine itself is not part of this model. Every primitive is described only by
    the shape of the node it builds: a node is a `rows x cols` matrix, and a primitive
    applied to nodes of incompatible shapes fails with a shape error instead of
    building a node. Failures propagate to the caller through `Result` and `:-`.
 */
module Nn {

  /** Shape of a node or a parameter: `rows x cols`. */
  datatype Shape = Shape(rows: nat, cols: nat)

  /** A node holding a single number (what the losses build and `as_scalar` reads). */
  const Scalar: Shape := Shape(1, 1)

  /** Either a value or the shape error the engine raises. */
  datatype Result<+T> = Ok(value: T) | Err(msg: string) {

    predicate IsFailure() {
      Err?
    }

    function PropagateFailure<U>(): Result<U>
      requires Err?
    {
      Err(msg)
    }

    function Extract(): T
      requires Ok?
    {
      value
    }
  }

  /** `nn.Linear(features, weights)`: a batch times a weight matrix. */
  function Linear(features: Shape, weights: Shape): Result<Shape>
  {
    if features.cols == weights.rows then Ok(Shape(features.rows, weights.cols))
    else Err("Linear: inner dimensions differ")
  }

  /** `nn.AddBias(features, bias)`: adds a `1 x cols` row to every row of the batch. */
  function AddBias(features: Shape, bias: Shape): Result<Shape>
  {
    if bias.rows == 1 && bias.cols == features.cols then Ok(features)
    else Err("AddBias: bias is not a 1 x cols row")
  }

  /** `nn.Add(a, b)`: elementwise sum of two nodes of one shape. */
  function Add(a: Shape, b: Shape): Result<Shape>
  {
    if a == b then Ok(a) else Err("Add: shapes differ")
  }

  /** `nn.ReLU(x)`: elementwise, so it never changes the shape. */
  function ReLU(x: Shape): Shape
  {
    x
  }

  /** `nn.DotProduct(features, weights)`: one score per row of `features`. */
  function DotProduct(features: Shape, weights: Shape): Result<Shape>
  {
    if weights.rows == 1 && features.cols == weights.cols then Ok(Shape(features.rows, 1))
    else Err("DotProduct: weights are not a matching 1 x cols row")
  }

  /** `nn.SquareLoss(predicted, target)`: mean squared error over the batch. */
  function SquareLoss(predicted: Shape, target: Shape): Result<Shape>
  {
    if predicted == target then Ok(Scalar) else Err("SquareLoss: shapes differ")
  }

  /** `nn.SoftmaxLoss(logits, labels)`: softmax cross-entropy over the batch. */
  function SoftmaxLoss(logits: Shape, labels: Shape): Result<Shape>
  {
    if logits == labels then Ok(Scalar) else Err("SoftmaxLoss: shapes differ")
  }

  /** `nn.as_scalar(node)`: reads the single number of a scalar node. */
  function AsScalar(node: Shape): Result<Shape>
  {
    if node == Scalar then Ok(Scalar) else Err("as_scalar: node is not a single number")
  }

  /** A hidden layer `ReLU(AddBias(Linear(x, w), b))`, the building block of the
      feed-forward models. */
  function HiddenLayer(x: Shape, w: Shape, b: Shape): Result<Shape>
  {
    var l :- Linear(x, w);
    var a :- AddBias(l, b);
    Ok(ReLU(a))
  }

  /** An output layer `AddBias(Linear(x, w), b)`: a hidden layer without the nonlinearity. */
  function OutputLayer(x: Shape, w: Shape, b: Shape): Result<Shape>
  {
    var l :- Linear(x, w);
    AddBias(l, b)
  }

  /** The shape law of one layer, with or without the nonlinearity: it succeeds exactly
      when the weights accept the batch's width and the bias is a row as wide as the
      weights' output, and then maps `k x n` to `k x m` for an `n x m` weight. */
  lemma LayerShape(x: Shape, w: Shape, b: Shape)
    ensures HiddenLayer(x, w, b) == OutputLayer(x, w, b)
    ensures OutputLayer(x, w, b).Ok? <==> x.cols == w.rows && b == Shape(1, w.cols)
    ensures OutputLayer(x, w, b).Ok? ==> OutputLayer(x, w, b).value == Shape(x.rows, w.cols)
  {
  }
}
