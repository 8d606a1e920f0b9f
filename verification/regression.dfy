/** `RegressionModel`: a feed-forward network with hidden layers of widths 5, 20
    and 5 that maps one real input to one real output, trained with a fixed rate
    until the smallest batch loss seen so far drops to the target.
 */
module Regression {
  import opened Nn
  import opened Tensors
  import opened Training

  /** The eight parameters, in the order the training step asks `nn.gradients` for
      them. The same record holds shapes, values, or one gradient per parameter. */
  datatype Params<T> = Params(w1: T, b1: T, w2: T, b2: T, w3: T, b3: T, w4: T, b4: T)

  /** The shapes the constructor gives the parameters. */
  const Layout: Params<Shape> :=
    Params(Shape(1, 5), Shape(1, 5), Shape(5, 20), Shape(1, 20),
           Shape(20, 5), Shape(1, 5), Shape(5, 1), Shape(1, 1))

  /** The forward pass for parameters of the given shapes: three hidden layers and a
      final linear layer without nonlinearity. */
  function Forward(l: Params<Shape>, x: Shape): Result<Shape>
  {
    var z1 :- HiddenLayer(x, l.w1, l.b1);
    var z2 :- HiddenLayer(z1, l.w2, l.b2);
    var z3 :- HiddenLayer(z2, l.w3, l.b3);
    OutputLayer(z3, l.w4, l.b4)
  }

  /** `run`: a batch of `k` inputs, one per row, gives `k` predictions, one per row;
      a batch of any other width is a shape error. */
  function Run(x: Shape): (r: Result<Shape>)
    ensures r.Ok? <==> x.cols == 1
    ensures r.Ok? ==> r.value == Shape(x.rows, 1)
  {
    LayerShape(x, Layout.w1, Layout.b1);
    LayerShape(Shape(x.rows, 5), Layout.w2, Layout.b2);
    LayerShape(Shape(x.rows, 20), Layout.w3, Layout.b3);
    LayerShape(Shape(x.rows, 5), Layout.w4, Layout.b4);
    Forward(Layout, x)
  }

  /** `get_loss`: the square loss of the predictions is a single number exactly when
      the targets are one per input row. */
  function GetLoss(x: Shape, y: Shape): (r: Result<Shape>)
    ensures r.Ok? <==> x.cols == 1 && y == Shape(x.rows, 1)
    ensures r.Ok? ==> r.value == Scalar
  {
    var predicted :- Run(x);
    SquareLoss(predicted, y)
  }

  /** The fixed learning rate of `train`. */
  const Alpha: real := -0.001

  /** `train` stops once the smallest loss seen is at most this. */
  const TargetLoss: real := 0.00005

  /** `min_loss`: the smallest batch loss seen so far, starting at +infinity. */
  datatype BestLoss = Infinite | Finite(value: real)

  /** `a` is no larger than `b`, with `Infinite` above every number. */
  predicate AtMost(a: BestLoss, b: BestLoss)
  {
    b.Infinite? || (a.Finite? && a.value <= b.value)
  }

  /** `min(min_loss, loss)`: a number no larger than either argument, and one of them. */
  function Min(best: BestLoss, loss: real): (r: BestLoss)
    ensures r.Finite? && r.value <= loss
    ensures AtMost(r, best)
    ensures r == best || r.value == loss
  {
    if best.Finite? && best.value <= loss then best else Finite(loss)
  }

  /** The `while` condition of `train`. */
  predicate KeepTraining(best: BestLoss)
  {
    best.Infinite? || best.value > TargetLoss
  }

  /** Every parameter value has its declared shape. */
  predicate Shaped(p: Params<Matrix>)
  {
    && HasShape(p.w1, Layout.w1) && HasShape(p.b1, Layout.b1)
    && HasShape(p.w2, Layout.w2) && HasShape(p.b2, Layout.b2)
    && HasShape(p.w3, Layout.w3) && HasShape(p.b3, Layout.b3)
    && HasShape(p.w4, Layout.w4) && HasShape(p.b4, Layout.b4)
  }

  /** What the dataset and the engine supply for one batch: the batch loss and one
      gradient per parameter. */
  datatype Batch = Batch(loss: real, grads: Params<Matrix>)

  /** Every batch's gradients have the parameters' shapes, as `nn.gradients` promises. */
  predicate GradsShaped(batches: seq<Batch>)
  {
    forall i :: 0 <= i < |batches| ==> Shaped(batches[i].grads)
  }

  /** The eight updates of one batch, every parameter along its own gradient. */
  function Step(p: Params<Matrix>, g: Params<Matrix>): (r: Params<Matrix>)
    requires Shaped(p) && Shaped(g)
    ensures Shaped(r)
  {
    Params(Update(p.w1, g.w1, Alpha), Update(p.b1, g.b1, Alpha),
           Update(p.w2, g.w2, Alpha), Update(p.b2, g.b2, Alpha),
           Update(p.w3, g.w3, Alpha), Update(p.b3, g.b3, Alpha),
           Update(p.w4, g.w4, Alpha), Update(p.b4, g.b4, Alpha))
  }

  /** Parameters and `min_loss` between batches. */
  datatype State = State(params: Params<Matrix>, best: BestLoss)

  /** One run of the `for` loop of `train`: every batch updates all parameters, and
      `min_loss` is lowered to the batch loss; nothing inside the pass stops it. The
      best loss after the pass is at most every loss of the pass and at most the best
      loss before it, and it is one of those numbers. */
  function Pass(s: State, batches: seq<Batch>): (r: State)
    requires Shaped(s.params) && GradsShaped(batches)
    ensures Shaped(r.params)
    ensures AtMost(r.best, s.best)
    ensures forall i :: 0 <= i < |batches| ==> r.best.Finite? && r.best.value <= batches[i].loss
    ensures r.best == s.best || exists i :: 0 <= i < |batches| && r.best == Finite(batches[i].loss)
    decreases |batches|
  {
    if |batches| == 0 then s
    else
      var b := batches[0];
      var r := Pass(State(Step(s.params, b.grads), Min(s.best, b.loss)), batches[1..]);
      assert forall i :: 1 <= i < |batches| ==> batches[i] == batches[1..][i - 1];
      r
  }

  /** A pass over one batch applies that batch's own gradients and lowers the best
      loss to its loss. */
  lemma PassOne(s: State, b: Batch)
    requires Shaped(s.params) && Shaped(b.grads)
    ensures GradsShaped([b])
    ensures Pass(s, [b]) == State(Step(s.params, b.grads), Min(s.best, b.loss))
  {
  }

  /** A pass over `xs + ys` is a pass over `xs` followed by a pass over `ys`: every
      batch applies its own gradients, in order, whatever the other batches carry. */
  lemma {:induction false} PassAppend(s: State, xs: seq<Batch>, ys: seq<Batch>)
    requires Shaped(s.params) && GradsShaped(xs) && GradsShaped(ys)
    ensures GradsShaped(xs + ys)
    ensures Pass(s, xs + ys) == Pass(Pass(s, xs), ys)
    decreases |xs|
  {
    assert forall i :: 0 <= i < |xs + ys| ==> (xs + ys)[i] in xs || (xs + ys)[i] in ys;
    if |xs| > 0 {
      var t := State(Step(s.params, xs[0].grads), Min(s.best, xs[0].loss));
      assert (xs + ys)[0] == xs[0];
      assert (xs + ys)[1..] == xs[1..] + ys;
      PassAppend(t, xs[1..], ys);
    } else {
      assert xs + ys == ys;
    }
  }

  /** The losses steer nothing inside a pass: two passes whose batches carry the same
      gradients end with the same parameters, whatever the losses were. */
  lemma {:induction false} PassIgnoresLosses(s: State, t: State, xs: seq<Batch>, ys: seq<Batch>)
    requires s.params == t.params
    requires Shaped(s.params) && GradsShaped(xs) && GradsShaped(ys)
    requires |xs| == |ys|
    requires forall i :: 0 <= i < |xs| ==> xs[i].grads == ys[i].grads
    ensures Pass(s, xs).params == Pass(t, ys).params
    decreases |xs|
  {
    if |xs| > 0 {
      var p := Step(s.params, xs[0].grads);
      PassIgnoresLosses(State(p, Min(s.best, xs[0].loss)), State(p, Min(t.best, ys[0].loss)),
                        xs[1..], ys[1..]);
    }
  }

  /** A pass whose batches all carry the gradients `g` applies them once per batch at
      rate -0.001: after `n` batches every parameter has moved by `n * -0.001` times
      its gradient, whatever the losses. */
  lemma {:induction false} RepeatedGradient(s: State, g: Params<Matrix>, batches: seq<Batch>)
    requires Shaped(s.params) && Shaped(g)
    requires forall i :: 0 <= i < |batches| ==> batches[i].grads == g
    ensures GradsShaped(batches)
    ensures var p, m := s.params, |batches| as real * Alpha;
            Pass(s, batches).params ==
              Params(Update(p.w1, g.w1, m), Update(p.b1, g.b1, m),
                     Update(p.w2, g.w2, m), Update(p.b2, g.b2, m),
                     Update(p.w3, g.w3, m), Update(p.b3, g.b3, m),
                     Update(p.w4, g.w4, m), Update(p.b4, g.b4, m))
    decreases |batches|
  {
    var p := s.params;
    if |batches| == 0 {
      UpdateByZero(p.w1, g.w1); UpdateByZero(p.b1, g.b1);
      UpdateByZero(p.w2, g.w2); UpdateByZero(p.b2, g.b2);
      UpdateByZero(p.w3, g.w3); UpdateByZero(p.b3, g.b3);
      UpdateByZero(p.w4, g.w4); UpdateByZero(p.b4, g.b4);
    } else {
      var t := State(Step(p, g), Min(s.best, batches[0].loss));
      RepeatedGradient(t, g, batches[1..]);
      var n := |batches| as real;
      var m := (n - 1.0) * Alpha;
      assert Alpha + m == n * Alpha;
      UpdateAdditive(p.w1, g.w1, Alpha, m); UpdateAdditive(p.b1, g.b1, Alpha, m);
      UpdateAdditive(p.w2, g.w2, Alpha, m); UpdateAdditive(p.b2, g.b2, Alpha, m);
      UpdateAdditive(p.w3, g.w3, Alpha, m); UpdateAdditive(p.b3, g.b3, Alpha, m);
      UpdateAdditive(p.w4, g.w4, Alpha, m); UpdateAdditive(p.b4, g.b4, Alpha, m);
    }
  }

  /** The body of the `while` loop of `train`: one pass. `Train` runs only
      parameters and gradients of the declared shapes; for any other the engine
      raises a shape error, and here the state is left as it is. */
  function Body(s: State, batches: seq<Batch>): (t: State)
    ensures Shaped(s.params) && GradsShaped(batches) ==> t == Pass(s, batches)
  {
    if Shaped(s.params) && GradsShaped(batches) then Pass(s, batches) else s
  }

  /** The `while` test of `train` on the loop state. */
  predicate Continue(s: State)
  {
    KeepTraining(s.best)
  }

  /** Passes of declared-shape gradients keep every parameter's declared shape. */
  lemma {:induction false} StaysShaped(s: State, passes: seq<seq<Batch>>, k: nat)
    requires k <= |passes|
    requires Shaped(s.params)
    requires forall j :: 0 <= j < |passes| ==> GradsShaped(passes[j])
    ensures Shaped(Iterate(Body, s, passes, k).params)
    decreases k
  {
    if k > 0 {
      StaysShaped(s, passes, k - 1);
    }
  }

  /** The state after the first `k` passes, each run in full. */
  function AfterPasses(s: State, passes: seq<seq<Batch>>, k: nat): (t: State)
    requires k <= |passes|
    requires Shaped(s.params)
    requires forall j :: 0 <= j < |passes| ==> GradsShaped(passes[j])
    ensures Shaped(t.params)
  {
    StaysShaped(s, passes, k);
    Iterate(Body, s, passes, k)
  }

  /** Pass `k` runs from the state the earlier passes left. */
  lemma PassAt(s: State, passes: seq<seq<Batch>>, k: nat)
    requires k < |passes|
    requires Shaped(s.params)
    requires forall j :: 0 <= j < |passes| ==> GradsShaped(passes[j])
    ensures AfterPasses(s, passes, k + 1) == Pass(AfterPasses(s, passes, k), passes[k])
  {
    StaysShaped(s, passes, k);
  }

  /** `train`: `min_loss = inf`, then `while min_loss > 0.00005` a pass; the
      condition is checked before every pass, never inside one. The source loops
      without bound; here the passes are supplied. The loop runs a pass exactly while
      the best loss is above the target: every pass it runs started with the
      condition true, and it stops at the first state where the condition is false,
      which is the state the passes run leave. The best loss never rises. */
  function Train(s: State, passes: seq<seq<Batch>>): (r: Exit<State>)
    requires Shaped(s.params)
    requires forall k :: 0 <= k < |passes| ==> GradsShaped(passes[k])
    ensures Shaped(r.state.params)
    ensures r.Converged? <==> !KeepTraining(r.state.best)
    ensures AtMost(r.state.best, s.best)
    ensures r.Converged? ==> r.passesRun <= |passes|
    ensures r.state == AfterPasses(s, passes, if r.Converged? then r.passesRun else |passes|)
    ensures r.Converged? ==> forall k :: 0 <= k < r.passesRun ==> KeepTraining(AfterPasses(s, passes, k).best)
    ensures r.OutOfPasses? ==> forall k :: 0 <= k <= |passes| ==> KeepTraining(AfterPasses(s, passes, k).best)
    ensures s.best.Infinite? && r.Converged? ==> r.passesRun >= 1
  {
    var r := RunWhile(Continue, Body, s, passes);
    BestNeverRises(s, passes, if r.Converged? then r.passesRun else |passes|);
    r
  }

  /** The best loss never rises from pass to pass, so it never rises over a run. */
  lemma {:induction false} BestNeverRises(s: State, passes: seq<seq<Batch>>, k: nat)
    requires k <= |passes|
    requires Shaped(s.params)
    requires forall j :: 0 <= j < |passes| ==> GradsShaped(passes[j])
    ensures AtMost(AfterPasses(s, passes, k).best, s.best)
    decreases k
  {
    if k > 0 {
      BestNeverRises(s, passes, k - 1);
      PassAt(s, passes, k - 1);
    }
  }
}
