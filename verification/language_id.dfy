/** `LanguageIDModel`: a recurrent classifier from a word, given as one one-hot row
    of 47 characters per letter for every word of the batch, to 5 language scores.
 */
module LanguageId {
  import opened Nn
  import opened Tensors
  import opened Training

  /** The four parameters, in the order the training step asks `nn.gradients` for
      them: input-to-hidden `W`, hidden-to-hidden `W_hidden`, and the output layer
      `W_out`, `b_out`. */
  datatype Params<T> = Params(w: T, wHidden: T, wOut: T, bOut: T)

  /** Size of the combined alphabet (`num_chars`). */
  const Chars: nat := 47

  /** Width of the hidden state. */
  const HiddenWidth: nat := 100

  /** Number of languages. */
  const Languages: nat := 5

  /** The shapes the constructor gives the parameters. */
  const Layout: Params<Shape> :=
    Params(Shape(Chars, HiddenWidth), Shape(HiddenWidth, HiddenWidth),
           Shape(HiddenWidth, Languages), Shape(1, Languages))

  /** The hidden state `z` of `run`: unbound before the first element, bound to a
      node after it. */
  datatype Slot = Unbound | Bound(z: Shape)

  /** One iteration of the loop of `run`: the first element (nothing bound yet) goes
      through `ReLU(Linear(x, W))`; every later one through
      `ReLU(Add(Linear(x, W), Linear(z, W_hidden)))`. */
  function Cell(l: Params<Shape>, slot: Slot, x: Shape): Result<Shape>
  {
    var a :- Linear(x, l.w);
    match slot
    case Unbound => Ok(ReLU(a))
    case Bound(z) =>
      var h :- Linear(z, l.wHidden);
      var s :- Add(a, h);
      Ok(ReLU(s))
  }

  /** The loop of `run` over the remaining elements, from the given slot. */
  function Recur(l: Params<Shape>, slot: Slot, xs: seq<Shape>): Result<Slot>
    decreases |xs|
  {
    if |xs| == 0 then Ok(slot)
    else
      var z :- Cell(l, slot, xs[0]);
      Recur(l, Bound(z), xs[1..])
  }

  /** `run` for parameters of the given shapes: the loop, then the output layer on
      the final hidden state. A word with no characters never binds `z`, which the
      output layer then reads: an error. */
  function Forward(l: Params<Shape>, xs: seq<Shape>): Result<Shape>
  {
    var slot :- Recur(l, Unbound, xs);
    match slot
    case Unbound => Err("run: z is unbound because xs is empty")
    case Bound(z) => OutputLayer(z, l.wOut, l.bOut)
  }

  /** Every element of `xs` is a batch of `k` one-hot characters. */
  predicate Uniform(xs: seq<Shape>, k: nat)
  {
    forall i :: 0 <= i < |xs| ==> xs[i] == Shape(k, Chars)
  }

  /** From a bound `k x 100` hidden state, the loop succeeds exactly on elements that
      are all `k x 47`, and then leaves a `k x 100` hidden state. */
  lemma {:induction false} RecurShape(k: nat, xs: seq<Shape>)
    ensures Recur(Layout, Bound(Shape(k, HiddenWidth)), xs).Ok? <==> Uniform(xs, k)
    ensures Uniform(xs, k) ==> Recur(Layout, Bound(Shape(k, HiddenWidth)), xs) == Ok(Bound(Shape(k, HiddenWidth)))
    decreases |xs|
  {
    if |xs| > 0 {
      assert Uniform(xs, k) <==> xs[0] == Shape(k, Chars) && Uniform(xs[1..], k) by {
        assert forall i :: 1 <= i < |xs| ==> xs[i] == xs[1..][i - 1];
      }
      RecurShape(k, xs[1..]);
    }
  }

  /** `run`: a word of at least one character, every element a batch of `k` one-hot
      rows, gives `k` rows of 5 scores whatever the word's length; an empty word, or
      elements of another width or batch size, is an error. */
  function Run(xs: seq<Shape>): (r: Result<Shape>)
    ensures r.Ok? <==> |xs| >= 1 && Uniform(xs, xs[0].rows)
    ensures r.Ok? ==> r.value == Shape(xs[0].rows, Languages)
  {
    if |xs| == 0 then Forward(Layout, xs)
    else
      var k := xs[0].rows;
      RecurShape(k, xs[1..]);
      assert Uniform(xs, k) <==> xs[0] == Shape(k, Chars) && Uniform(xs[1..], k) by {
        assert forall i :: 1 <= i < |xs| ==> xs[i] == xs[1..][i - 1];
      }
      Forward(Layout, xs)
  }

  /** `get_loss`: the softmax loss is a single number exactly when the word is
      well-formed for `run` and the labels are one row of 5 per word. */
  function GetLoss(xs: seq<Shape>, y: Shape): (r: Result<Shape>)
    ensures r.Ok? <==> |xs| >= 1 && Uniform(xs, xs[0].rows) && y == Shape(xs[0].rows, Languages)
    ensures r.Ok? ==> r.value == Scalar
  {
    var logits :- Run(xs);
    SoftmaxLoss(logits, y)
  }

  /** The two-state hidden slot: after the first `i` elements of a well-formed word
      it is unbound when `i` is 0 and a `k x 100` node for every later `i`. */
  lemma HiddenStateAfterEachElement(xs: seq<Shape>, k: nat, i: nat)
    requires Uniform(xs, k) && i <= |xs|
    ensures i == 0 ==> Recur(Layout, Unbound, xs[..i]) == Ok(Unbound)
    ensures i >= 1 ==> Recur(Layout, Unbound, xs[..i]) == Ok(Bound(Shape(k, HiddenWidth)))
  {
    if i >= 1 {
      var prefix := xs[..i];
      assert Uniform(prefix[1..], k) by {
        assert forall j :: 0 <= j < |prefix[1..]| ==> prefix[1..][j] == xs[j + 1];
      }
      RecurShape(k, prefix[1..]);
      assert prefix[0] == Shape(k, Chars);
    }
  }

  /** Only the first element skips the `W_hidden` term: with the other parameters as
      declared, a well-formed word of one character runs whatever shape `W_hidden`
      has, while a longer one runs only with the declared `100 x 100`. */
  lemma {:induction false} HiddenWeightUsedFromSecondElement(xs: seq<Shape>, h: Shape)
    requires |xs| >= 1 && Uniform(xs, xs[0].rows)
    ensures Forward(Layout.(wHidden := h), xs).Ok? <==> |xs| == 1 || h == Layout.wHidden
  {
    var k := xs[0].rows;
    var l := Layout.(wHidden := h);
    var z := Shape(k, HiddenWidth);
    assert Cell(l, Unbound, xs[0]) == Ok(z);
    assert Recur(l, Unbound, xs) == Recur(l, Bound(z), xs[1..]);
    if h == Layout.wHidden {
      assert l == Layout;
      var _ := Run(xs);
    } else if |xs| >= 2 {
      assert xs[1..][0] == xs[1];
      assert Cell(l, Bound(z), xs[1]).Err?;
    }
  }

  /** The fixed learning rate of `train`. */
  const Alpha: real := -0.01

  /** Validation accuracy above which `train` returns. */
  const StopAbove: real := 0.90

  /** Every value (or gradient) has its parameter's declared shape. */
  predicate Shaped(p: Params<Matrix>)
  {
    && HasShape(p.w, Layout.w) && HasShape(p.wHidden, Layout.wHidden)
    && HasShape(p.wOut, Layout.wOut) && HasShape(p.bOut, Layout.bOut)
  }

  /** What the dataset and the engine supply for one batch: the validation accuracy
      read after the loss, and one gradient per parameter. */
  datatype Batch = Batch(acc: real, grads: Params<Matrix>)

  /** Every batch's gradients have their parameters' shapes, as `nn.gradients`
      promises. */
  predicate AllGradsShaped(batches: seq<Batch>)
  {
    forall i :: 0 <= i < |batches| ==> Shaped(batches[i].grads)
  }

  /** The four updates of one batch, every parameter along its own gradient. */
  function Step(p: Params<Matrix>, g: Params<Matrix>): (r: Params<Matrix>)
    requires Shaped(p) && Shaped(g)
    ensures Shaped(r)
  {
    Params(Update(p.w, g.w, Alpha), Update(p.wHidden, g.wHidden, Alpha),
           Update(p.wOut, g.wOut, Alpha), Update(p.bOut, g.bOut, Alpha))
  }

  /** The inner `for` loop of `train` over a sequence of batches: the accuracy is
      checked first, and above 0.90 the loop returns before that batch's gradients
      are applied; otherwise all four parameters are updated. Running out of batches
      is `Completed`. */
  function RunBatches(p: Params<Matrix>, batches: seq<Batch>): (r: Outcome<Params<Matrix>>)
    requires Shaped(p) && AllGradsShaped(batches)
    ensures Shaped(r.params)
    ensures r.Stopped? <==> exists i :: 0 <= i < |batches| && batches[i].acc > StopAbove
    decreases |batches|
  {
    if |batches| == 0 then Completed(p)
    else if batches[0].acc > StopAbove then Stopped(p)
    else
      var r := RunBatches(Step(p, batches[0].grads), batches[1..]);
      assert forall i :: 1 <= i < |batches| ==> batches[i] == batches[1..][i - 1];
      r
  }

  /** `train` returns on the first batch whose accuracy exceeds 0.90, with the
      parameters exactly as the batches before it left them. */
  lemma {:induction false} StopsBeforeUpdating(p: Params<Matrix>, batches: seq<Batch>, k: nat)
    requires Shaped(p) && AllGradsShaped(batches)
    requires k < |batches| && batches[k].acc > StopAbove
    requires forall i :: 0 <= i < k ==> batches[i].acc <= StopAbove
    ensures RunBatches(p, batches[..k]).Completed?
    ensures RunBatches(p, batches) == Stopped(RunBatches(p, batches[..k]).params)
    decreases k
  {
    if k > 0 {
      assert batches[..k][1..] == batches[1..][..k - 1];
      StopsBeforeUpdating(Step(p, batches[0].grads), batches[1..], k - 1);
    }
  }

  /** Each batch applies each gradient exactly once at rate -0.01: `n` batches that
      do not stop and carry the same gradients move every parameter by `n * -0.01`
      times its gradient. */
  lemma {:induction false} RepeatedGradient(p: Params<Matrix>, g: Params<Matrix>, batches: seq<Batch>)
    requires Shaped(p) && Shaped(g)
    requires forall i :: 0 <= i < |batches| ==> batches[i] == Batch(batches[i].acc, g)
    requires forall i :: 0 <= i < |batches| ==> batches[i].acc <= StopAbove
    ensures AllGradsShaped(batches)
    ensures RunBatches(p, batches) ==
              Completed(Params(Update(p.w, g.w, |batches| as real * Alpha),
                               Update(p.wHidden, g.wHidden, |batches| as real * Alpha),
                               Update(p.wOut, g.wOut, |batches| as real * Alpha),
                               Update(p.bOut, g.bOut, |batches| as real * Alpha)))
    decreases |batches|
  {
    var n := |batches| as real;
    if |batches| == 0 {
      UpdateByZero(p.w, g.w);
      UpdateByZero(p.wHidden, g.wHidden);
      UpdateByZero(p.wOut, g.wOut);
      UpdateByZero(p.bOut, g.bOut);
    } else {
      var q := Step(p, g);
      assert batches[0].grads == g;
      RepeatedGradient(q, g, batches[1..]);
      var m := (n - 1.0) * Alpha;
      assert Alpha + m == n * Alpha;
      UpdateAdditive(p.w, g.w, Alpha, m);
      UpdateAdditive(p.wHidden, g.wHidden, Alpha, m);
      UpdateAdditive(p.wOut, g.wOut, Alpha, m);
      UpdateAdditive(p.bOut, g.bOut, Alpha, m);
    }
  }

  /** `train`: the `for` loop over the batches of each pass inside a `while True`
      over the passes. The source loops without bound; here the passes are supplied,
      and running out of them is `Completed`. It stops exactly when some batch of
      some pass has accuracy above 0.90. */
  function Train(p: Params<Matrix>, passes: seq<seq<Batch>>): (r: Outcome<Params<Matrix>>)
    requires Shaped(p)
    requires forall k :: 0 <= k < |passes| ==> AllGradsShaped(passes[k])
    ensures Shaped(r.params)
    ensures r.Stopped? <==>
              exists k, i :: 0 <= k < |passes| && 0 <= i < |passes[k]| && passes[k][i].acc > StopAbove
    decreases |passes|
  {
    if |passes| == 0 then Completed(p)
    else
      match RunBatches(p, passes[0])
      case Stopped(q) => Stopped(q)
      case Completed(q) =>
        var r := Train(q, passes[1..]);
        assert forall k :: 1 <= k < |passes| ==> passes[k] == passes[1..][k - 1];
        r
  }

  /** Training on `xs + ys` is training on `xs`, then, unless that stopped, on `ys`. */
  lemma {:induction false} ContinueAfter(p: Params<Matrix>, xs: seq<Batch>, ys: seq<Batch>)
    requires Shaped(p) && AllGradsShaped(xs) && AllGradsShaped(ys)
    ensures AllGradsShaped(xs + ys)
    ensures RunBatches(p, xs + ys) ==
              match RunBatches(p, xs)
              case Stopped(q) => Stopped(q)
              case Completed(q) => RunBatches(q, ys)
    decreases |xs|
  {
    assert forall i :: 0 <= i < |xs| ==> (xs + ys)[i] == xs[i];
    assert forall i :: |xs| <= i < |xs + ys| ==> (xs + ys)[i] == ys[i - |xs|];
    if |xs| > 0 {
      assert (xs + ys)[1..] == xs[1..] + ys;
      if xs[0].acc <= StopAbove {
        ContinueAfter(Step(p, xs[0].grads), xs[1..], ys);
      }
    } else {
      assert xs + ys == ys;
    }
  }

  /** The `while True` around the passes adds nothing: training pass after pass is
      training on all their batches in one sequence. */
  lemma {:induction false} PassesAreOneSequence(p: Params<Matrix>, passes: seq<seq<Batch>>)
    requires Shaped(p)
    requires forall k :: 0 <= k < |passes| ==> AllGradsShaped(passes[k])
    ensures AllGradsShaped(Flatten(passes))
    ensures RunBatches(p, Flatten(passes)) == Train(p, passes)
    decreases |passes|
  {
    if |passes| > 0 {
      var rest := passes[1..];
      assert forall k :: 0 <= k < |rest| ==> rest[k] == passes[k + 1];
      PassesAreOneSequence(p, rest);
      ContinueAfter(p, passes[0], Flatten(rest));
      var first := RunBatches(p, passes[0]);
      if first.Completed? {
        PassesAreOneSequence(first.params, rest);
      }
    }
  }
}
