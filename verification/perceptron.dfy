/** `PerceptronModel`: a binary linear classifier with one `1 x d` weight row `w`.

    The weight row is modelled as its single row of exact reals. A data point is
    also a `1 x d` row, and its label is the real number the dataset stores
    (`+1.0` or `-1.0` in the intended data).
 */
module Perceptron {
  import opened Nn
  import opened Tensors
  import opened Training

  /** One training example: a data point and its label. */
  datatype Example = Example(x: Vector, y: real)

  /** Every point of `data` has `dim` coordinates. */
  predicate Fits(dim: nat, data: seq<Example>)
  {
    forall i :: 0 <= i < |data| ==> |data[i].x| == dim
  }

  /** Python's `int(r)` on a float: truncation toward zero. */
  function Truncate(r: real): (t: int)
    ensures 0.0 <= r ==> t as real <= r < t as real + 1.0
    ensures r < 0.0 ==> t as real - 1.0 < r <= t as real
  {
    if r >= 0.0 then r.Floor else -((-r).Floor)
  }

  /** The shape side of `run`: `nn.DotProduct(self.w, x)` with `w` of shape `1 x dim`
      builds a single-number node, ready for `as_scalar`, exactly when `x` is a
      `1 x dim` row; any other point is a shape error. */
  function RunShape(dim: nat, x: Shape): (r: Result<Shape>)
    ensures r.Ok? <==> x == Shape(1, dim)
    ensures r.Ok? ==> AsScalar(r.value).Ok?
  {
    DotProduct(Shape(1, dim), x)
  }

  /** `get_prediction`: the sign of the score `w . x`, with a zero score going to +1. */
  function Predict(w: Vector, x: Vector): (p: int)
    requires |w| == |x|
    ensures p == 1 || p == -1
    ensures p == 1 <==> Dot(w, x) >= 0.0
  {
    if Dot(w, x) >= 0.0 then 1 else -1
  }

  /** `w` classifies the example as its (truncated) label says. */
  predicate Correct(w: Vector, e: Example)
    requires |e.x| == |w|
  {
    Predict(w, e.x) == Truncate(e.y)
  }

  /** `w` classifies every example of `data` correctly. */
  predicate AllCorrect(w: Vector, data: seq<Example>)
    requires Fits(|w|, data)
  {
    forall i :: 0 <= i < |data| ==> Correct(w, data[i])
  }

  /** The weight update of the inner loop of `train` for one example: a correctly
      classified example changes nothing; a misclassified one adds `y * x` to the
      weights. */
  function Step(w: Vector, e: Example): (w': Vector)
    requires |e.x| == |w|
    ensures |w'| == |w|
    ensures Correct(w, e) ==> w' == w
    ensures !Correct(w, e) ==> forall i :: 0 <= i < |w'| ==> w'[i] == w[i] + e.y * e.x[i]
  {
    if Correct(w, e) then w else Axpy(w, e.x, e.y)
  }

  /** The update of a misclassified example moves its score by `y * (x . x)`. */
  lemma MistakeMovesScore(w: Vector, e: Example)
    requires |e.x| == |w|
    requires !Correct(w, e)
    ensures Dot(Step(w, e), e.x) == Dot(w, e.x) + e.y * Dot(e.x, e.x)
  {
    DotAxpy(w, e.x, e.y, e.x);
  }

  /** The example's term `(int(y) - prediction) ** 2` of `agg_mse`: never negative,
      and zero exactly when the example is classified correctly. */
  function SquaredError(w: Vector, e: Example): (s: int)
    requires |e.x| == |w|
    ensures s >= 0
    ensures s == 0 <==> Correct(w, e)
  {
    var miss := Truncate(e.y) - Predict(w, e.x);
    miss * miss
  }

  /** Weights and the accumulated `agg_mse` at the end of a pass; also the state of
      the `while` loop of `train`. */
  datatype PassResult = PassResult(w: Vector, aggMse: int)

  /** One run of the `for` loop of `train`: the examples in the order the dataset
      yields them, in batches of one, each seeing the weights the previous ones left. */
  function Pass(w: Vector, data: seq<Example>): (r: PassResult)
    requires Fits(|w|, data)
    ensures |r.w| == |w|
    ensures r.aggMse >= 0
    decreases |data|
  {
    if |data| == 0 then PassResult(w, 0)
    else
      var rest := Pass(Step(w, data[0]), data[1..]);
      PassResult(rest.w, SquaredError(w, data[0]) + rest.aggMse)
  }

  /** A pass over one example applies that example's update and records its term. */
  lemma PassOne(w: Vector, e: Example)
    requires |e.x| == |w|
    ensures Pass(w, [e]) == PassResult(Step(w, e), SquaredError(w, e))
  {
  }

  /** A pass over `xs + ys` is a pass over `xs` followed by a pass over `ys` from the
      weights `xs` left, and `agg_mse` adds up over the two. */
  lemma {:induction false} PassAppend(w: Vector, xs: seq<Example>, ys: seq<Example>)
    requires Fits(|w|, xs) && Fits(|w|, ys)
    ensures Fits(|w|, xs + ys)
    ensures var a := Pass(w, xs);
            var b := Pass(a.w, ys);
            Pass(w, xs + ys) == PassResult(b.w, a.aggMse + b.aggMse)
    decreases |xs|
  {
    assert forall i :: 0 <= i < |xs + ys| ==> (xs + ys)[i] in xs || (xs + ys)[i] in ys;
    if |xs| > 0 {
      var w' := Step(w, xs[0]);
      assert (xs + ys)[0] == xs[0];
      assert (xs + ys)[1..] == xs[1..] + ys;
      PassAppend(w', xs[1..], ys);
    } else {
      assert xs + ys == ys;
    }
  }

  /** Number of examples the pass misclassifies, each judged with the weights in
      force when it is reached. */
  function Mistakes(w: Vector, data: seq<Example>): nat
    requires Fits(|w|, data)
    decreases |data|
  {
    if |data| == 0 then 0
    else (if Correct(w, data[0]) then 0 else 1) + Mistakes(Step(w, data[0]), data[1..])
  }

  /** Every label is +1 or -1. */
  predicate SignLabels(data: seq<Example>)
  {
    forall i :: 0 <= i < |data| ==> data[i].y == 1.0 || data[i].y == -1.0
  }

  /** A misclassified point with a +1/-1 label contributes `(y - prediction)^2 == 4`,
      so with such labels `agg_mse` after a pass is four times the number of
      mistakes. */
  lemma {:induction false} AggMseCountsMistakes(w: Vector, data: seq<Example>)
    requires Fits(|w|, data)
    requires SignLabels(data)
    ensures Pass(w, data).aggMse == 4 * Mistakes(w, data)
    decreases |data|
  {
    if |data| > 0 {
      var e := data[0];
      assert Truncate(e.y) == 1 || Truncate(e.y) == -1;
      assert SignLabels(data[1..]) by {
        forall i | 0 <= i < |data[1..]|
          ensures data[1..][i].y == 1.0 || data[1..][i].y == -1.0
        {
          assert data[1..][i] == data[i + 1];
        }
      }
      AggMseCountsMistakes(Step(w, e), data[1..]);
    }
  }

  /** The loop exit of `train`: a pass ends with `agg_mse == 0` exactly when every
      example of the pass is classified correctly by the weights the pass started
      with, and then the pass has not changed the weights. This holds for any labels,
      not only +1/-1. */
  lemma {:induction false} CleanPassIsFixedPoint(w: Vector, data: seq<Example>)
    requires Fits(|w|, data)
    ensures Pass(w, data).aggMse == 0 <==> AllCorrect(w, data)
    ensures Pass(w, data).aggMse == 0 ==> Pass(w, data).w == w
    decreases |data|
  {
    if |data| > 0 {
      CleanPassIsFixedPoint(Step(w, data[0]), data[1..]);
      if Correct(w, data[0]) {
        assert forall i :: 1 <= i < |data| ==> data[i] == data[1..][i - 1];
      }
    }
  }

  /** A pass with zero `agg_mse` is a pass with zero mistakes. */
  lemma {:induction false} CleanPassHasNoMistakes(w: Vector, data: seq<Example>)
    requires Fits(|w|, data)
    ensures Pass(w, data).aggMse == 0 <==> Mistakes(w, data) == 0
    decreases |data|
  {
    if |data| > 0 {
      CleanPassHasNoMistakes(Step(w, data[0]), data[1..]);
    }
  }

  /** A misclassified point with a +1/-1 label: the update moves its score toward
      the label by `x . x`, never away from it. */
  lemma MistakeMovesScoreTowardLabel(w: Vector, e: Example)
    requires |e.x| == |w|
    requires e.y == 1.0 || e.y == -1.0
    requires !Correct(w, e)
    ensures e.y == 1.0 ==> Dot(Step(w, e), e.x) == Dot(w, e.x) + Dot(e.x, e.x) >= Dot(w, e.x)
    ensures e.y == -1.0 ==> Dot(Step(w, e), e.x) == Dot(w, e.x) - Dot(e.x, e.x) <= Dot(w, e.x)
  {
    MistakeMovesScore(w, e);
    DotSelfNonNegative(e.x);
  }

  /** The pass ended with `agg_mse == 0`. */
  predicate Clean(w: Vector, data: seq<Example>)
    requires Fits(|w|, data)
  {
    Pass(w, data).aggMse == 0
  }

  /** The `while` test of `train`: the last pass's `agg_mse` is not zero. */
  predicate KeepTraining(s: PassResult)
  {
    s.aggMse != 0
  }

  /** The body of the `while` loop of `train`: one pass from the current weights.
      `Train` runs only passes whose points have the weights' width; a pass of any
      other width is a shape error in the engine, and here leaves the state as it
      is. */
  function Body(s: PassResult, data: seq<Example>): (t: PassResult)
    ensures Fits(|s.w|, data) ==> t == Pass(s.w, data)
  {
    if Fits(|s.w|, data) then Pass(s.w, data) else s
  }

  /** The loop state of `train` after the first `k` passes, from weights `w` and
      `agg_mse = 1`. */
  function LoopState(w: Vector, passes: seq<seq<Example>>, k: nat): PassResult
    requires k <= |passes|
  {
    Iterate(Body, PassResult(w, 1), passes, k)
  }

  /** Passes that fit the weights keep the weights' width. */
  lemma {:induction false} LoopStateWidth(w: Vector, passes: seq<seq<Example>>, k: nat)
    requires k <= |passes|
    requires forall j :: 0 <= j < |passes| ==> Fits(|w|, passes[j])
    ensures |LoopState(w, passes, k).w| == |w|
    decreases k
  {
    if k > 0 {
      LoopStateWidth(w, passes, k - 1);
    }
  }

  /** The weights after the first `k` passes, each run in full: the weights pass `k`
      starts from. */
  function AfterPasses(w: Vector, passes: seq<seq<Example>>, k: nat): (v: Vector)
    requires k <= |passes|
    requires forall j :: 0 <= j < |passes| ==> Fits(|w|, passes[j])
    ensures |v| == |w|
  {
    LoopStateWidth(w, passes, k);
    LoopState(w, passes, k).w
  }

  /** Pass `k` runs from the weights the earlier passes left. */
  lemma PassAt(w: Vector, passes: seq<seq<Example>>, k: nat)
    requires k < |passes|
    requires forall j :: 0 <= j < |passes| ==> Fits(|w|, passes[j])
    ensures LoopState(w, passes, k + 1) == Pass(AfterPasses(w, passes, k), passes[k])
  {
    LoopStateWidth(w, passes, k);
  }

  /** A pass that ends the loop leaves the weights it started from, and they
      classify every example of that pass correctly. */
  lemma LastPassIsFixedPoint(w: Vector, passes: seq<seq<Example>>, n: nat)
    requires 1 <= n <= |passes|
    requires forall j :: 0 <= j < |passes| ==> Fits(|w|, passes[j])
    requires !KeepTraining(LoopState(w, passes, n))
    ensures AfterPasses(w, passes, n) == AfterPasses(w, passes, n - 1)
    ensures AllCorrect(AfterPasses(w, passes, n), passes[n - 1])
  {
    PassAt(w, passes, n - 1);
    CleanPassIsFixedPoint(AfterPasses(w, passes, n - 1), passes[n - 1]);
  }

  /** `train`: `agg_mse = 1`, then passes run one after another while `agg_mse != 0`.
      The source loops without bound; here the passes are supplied, and running out
      of them is `OutOfPasses`. At least one pass runs. The final weights are those
      the passes run leave, and they classify every example of the last pass
      correctly; `ExitsAtFirstCleanPass` says which pass that is. */
  function Train(w: Vector, passes: seq<seq<Example>>): (r: Exit<Vector>)
    requires forall k :: 0 <= k < |passes| ==> Fits(|w|, passes[k])
    ensures |r.state| == |w|
    ensures r.Converged? ==> 1 <= r.passesRun <= |passes|
    ensures r.state == AfterPasses(w, passes, if r.Converged? then r.passesRun else |passes|)
    ensures r.Converged? ==> AllCorrect(r.state, passes[r.passesRun - 1])
  {
    match RunWhile(KeepTraining, Body, PassResult(w, 1), passes)
    case Converged(s, n) =>
      assert s == LoopState(w, passes, n) && n != 0;
      LastPassIsFixedPoint(w, passes, n);
      Converged(AfterPasses(w, passes, n), n)
    case OutOfPasses(s) =>
      assert s == LoopState(w, passes, |passes|);
      OutOfPasses(AfterPasses(w, passes, |passes|))
  }

  /** The loop exits after the first clean pass and after no other: a converged run
      ends on a pass with `agg_mse == 0` after passes that all had `agg_mse > 0`,
      and a run that ran out of passes had no clean pass. */
  lemma ExitsAtFirstCleanPass(w: Vector, passes: seq<seq<Example>>)
    requires forall k :: 0 <= k < |passes| ==> Fits(|w|, passes[k])
    ensures var r := Train(w, passes);
            r.Converged? ==>
              && Clean(AfterPasses(w, passes, r.passesRun - 1), passes[r.passesRun - 1])
              && forall k :: 0 <= k < r.passesRun - 1 ==> !Clean(AfterPasses(w, passes, k), passes[k])
    ensures Train(w, passes).OutOfPasses? ==>
              forall k :: 0 <= k < |passes| ==> !Clean(AfterPasses(w, passes, k), passes[k])
  {
    forall k | 0 <= k < |passes|
      ensures Clean(AfterPasses(w, passes, k), passes[k]) <==> !KeepTraining(LoopState(w, passes, k + 1))
    {
      PassAt(w, passes, k);
    }
  }

  /** The loop exit restated with the independent mistake count: `train` converges
      exactly when some pass, started from the weights the earlier passes left, makes
      no mistake. */
  lemma ConvergesIffSomePassHasNoMistakes(w: Vector, passes: seq<seq<Example>>)
    requires forall k :: 0 <= k < |passes| ==> Fits(|w|, passes[k])
    ensures Train(w, passes).Converged? <==>
              exists k :: 0 <= k < |passes| && Mistakes(AfterPasses(w, passes, k), passes[k]) == 0
  {
    forall k | 0 <= k < |passes|
      ensures Mistakes(AfterPasses(w, passes, k), passes[k]) == 0 <==> !KeepTraining(LoopState(w, passes, k + 1))
    {
      PassAt(w, passes, k);
      CleanPassHasNoMistakes(AfterPasses(w, passes, k), passes[k]);
    }
    var r := RunWhile(KeepTraining, Body, PassResult(w, 1), passes);
    if r.Converged? {
      assert r.passesRun != 0;
      assert Mistakes(AfterPasses(w, passes, r.passesRun - 1), passes[r.passesRun - 1]) == 0;
    }
  }

  /** The XOR pattern: the origin labelled -1, (0, 1) and (1, 0) labelled +1, and
      (1, 1) labelled -1. */
  const Xor: seq<Example> :=
    [Example([0.0, 0.0], -1.0), Example([0.0, 1.0], 1.0),
     Example([1.0, 0.0], 1.0), Example([1.0, 1.0], -1.0)]

  /** Every weight row gives the origin of the plane the score zero. */
  lemma OriginScoresZero(w: Vector)
    requires |w| == 2
    ensures Dot(w, [0.0, 0.0]) == 0.0
  {
    var o: Vector := [0.0, 0.0];
    assert o[1..][1..] == [];
    assert Dot(w[1..], o[1..]) == w[1] * 0.0 + Dot(w[1..][1..], o[1..][1..]);
  }

  /** The model has no bias, so the origin scores zero and predicts +1 whatever the
      weights: any pass that contains the origin labelled -1 makes a mistake, and
      `train` never stops on such passes. */
  lemma MislabelledOriginNeverConverges(w: Vector, passes: seq<seq<Example>>)
    requires |w| == 2
    requires forall k :: 0 <= k < |passes| ==> Fits(2, passes[k]) && Xor[0] in passes[k]
    ensures Train(w, passes).OutOfPasses?
  {
    var r := Train(w, passes);
    if r.Converged? {
      var last := passes[r.passesRun - 1];
      var i :| 0 <= i < |last| && last[i] == Xor[0];
      OriginScoresZero(r.state);
      assert false;
    }
  }

  /** On the XOR pattern, with every pass yielding the four examples in any order,
      no pass is ever clean, so `train` never stops. */
  lemma XorNeverConverges(w: Vector, passes: seq<seq<Example>>)
    requires |w| == 2
    requires forall k :: 0 <= k < |passes| ==> multiset(passes[k]) == multiset(Xor)
    ensures forall k :: 0 <= k < |passes| ==> Fits(2, passes[k])
    ensures Train(w, passes).OutOfPasses?
  {
    forall k | 0 <= k < |passes|
      ensures Fits(2, passes[k]) && Xor[0] in passes[k]
    {
      forall i | 0 <= i < |passes[k]|
        ensures |passes[k][i].x| == 2
      {
        assert passes[k][i] in multiset(Xor);
      }
      assert Xor[0] in multiset(passes[k]);
    }
    MislabelledOriginNeverConverges(w, passes);
  }
}
