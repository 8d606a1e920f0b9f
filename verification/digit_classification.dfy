/** `DigitClassificationModel`: a feed-forward network from a flattened 28 x 28 image
    (784 numbers) to 10 class scores, with hidden layers of widths 200, 100, 30 and 15,
    trained with a learning rate picked from the current validation accuracy.
 */
module DigitClassification {
  import opened Nn
  import opened Tensors
  import opened Training

  /** The ten parameters, in the order the constructor creates them. */
  datatype Params<T> = Params(w1: T, b1: T, w2: T, b2: T, w3: T, b3: T, w4: T, b4: T, w5: T, b5: T)

  /** The gradients one training step asks `nn.gradients` for: the first eight
      parameters only; `w5` and `b5` are not in the list. */
  datatype Grads<T> = Grads(w1: T, b1: T, w2: T, b2: T, w3: T, b3: T, w4: T, b4: T)

  /** Width of a flattened image. */
  const Pixels: nat := 784

  /** Number of digit classes. */
  const Classes: nat := 10

  /** The shapes the constructor gives the parameters. */
  const Layout: Params<Shape> :=
    Params(Shape(784, 200), Shape(1, 200), Shape(200, 100), Shape(1, 100),
           Shape(100, 30), Shape(1, 30), Shape(30, 15), Shape(1, 15),
           Shape(15, 10), Shape(1, 10))

  /** The forward pass for parameters of the given shapes: four hidden layers and a
      final linear layer without nonlinearity. */
  function Forward(l: Params<Shape>, x: Shape): Result<Shape>
  {
    var z1 :- HiddenLayer(x, l.w1, l.b1);
    var z2 :- HiddenLayer(z1, l.w2, l.b2);
    var z3 :- HiddenLayer(z2, l.w3, l.b3);
    var z4 :- HiddenLayer(z3, l.w4, l.b4);
    OutputLayer(z4, l.w5, l.b5)
  }

  /** `run`: a batch of `k` images gives `k` rows of 10 scores; a batch whose rows are
      not 784 wide is a shape error. */
  function Run(x: Shape): (r: Result<Shape>)
    ensures r.Ok? <==> x.cols == Pixels
    ensures r.Ok? ==> r.value == Shape(x.rows, Classes)
  {
    LayerShape(x, Layout.w1, Layout.b1);
    LayerShape(Shape(x.rows, 200), Layout.w2, Layout.b2);
    LayerShape(Shape(x.rows, 100), Layout.w3, Layout.b3);
    LayerShape(Shape(x.rows, 30), Layout.w4, Layout.b4);
    LayerShape(Shape(x.rows, 15), Layout.w5, Layout.b5);
    Forward(Layout, x)
  }

  /** `get_loss`: the softmax loss is a single number exactly when the labels are one
      row of 10 per image. */
  function GetLoss(x: Shape, y: Shape): (r: Result<Shape>)
    ensures r.Ok? <==> x.cols == Pixels && y == Shape(x.rows, Classes)
    ensures r.Ok? ==> r.value == Scalar
  {
    var logits :- Run(x);
    SoftmaxLoss(logits, y)
  }

  /** What `train` does after a batch: return, or update with the given rate. */
  datatype Decision = Stop | Rate(alpha: real)

  /** Validation accuracy above which `train` returns. */
  const StopAbove: real := 0.973

  /** Rate for an accuracy at or below every threshold of `RateTable`. */
  const FloorRate: real := -0.55

  /** The rate schedule below the stop threshold as (threshold, rate) pairs, highest
      threshold first: the first threshold the accuracy exceeds gives the rate. */
  const RateTable: seq<(real, real)> :=
    [(0.970, -0.005), (0.960, -0.05), (0.750, -0.1), (0.450, -0.5)]

  /** The selector as `train` writes it, a chain of strict comparisons: accuracy above
      0.973 stops, and every other accuracy gets a negative rate. */
  function SelectRate(acc: real): (d: Decision)
    ensures d.Stop? <==> acc > StopAbove
    ensures d.Rate? ==> FloorRate <= d.alpha < 0.0
  {
    if acc > 0.973 then Stop
    else if acc > 0.970 then Rate(-0.005)
    else if acc > 0.960 then Rate(-0.05)
    else if acc > 0.750 then Rate(-0.1)
    else if acc > 0.450 then Rate(-0.5)
    else Rate(-0.55)
  }

  /** Scans a (threshold, rate) table from its first row: the rate of the first
      threshold that `acc` exceeds, or `floor` when it exceeds none. */
  function Scan(table: seq<(real, real)>, acc: real, floor: real): (r: real)
    ensures r == floor || exists i :: 0 <= i < |table| && r == table[i].1
    ensures (forall i :: 0 <= i < |table| ==> acc <= table[i].0) ==> r == floor
  {
    if |table| == 0 then floor
    else if acc > table[0].0 then table[0].1
    else Scan(table[1..], acc, floor)
  }

  /** A table whose thresholds fall strictly and whose rates grow strictly in
      magnitude, all of them negative and above `floor`. */
  predicate Annealing(table: seq<(real, real)>, floor: real)
  {
    && (forall i, j :: 0 <= i < j < |table| ==> table[j].0 < table[i].0 && table[j].1 < table[i].1)
    && (forall i :: 0 <= i < |table| ==> floor < table[i].1 < 0.0)
  }

  /** Scanning an annealing table: a higher accuracy never gets a rate of larger
      magnitude. */
  lemma {:induction false} ScanMonotone(table: seq<(real, real)>, floor: real, lo: real, hi: real)
    requires Annealing(table, floor)
    requires lo <= hi
    ensures Scan(table, lo, floor) <= Scan(table, hi, floor)
    decreases |table|
  {
    if |table| > 0 && !(hi > table[0].0) {
      var tail := table[1..];
      assert Annealing(tail, floor) by {
        assert forall i :: 0 <= i < |tail| ==> tail[i] == table[i + 1];
      }
      ScanMonotone(tail, floor, lo, hi);
    } else if |table| > 0 && !(lo > table[0].0) {
      var tail := table[1..];
      var r := Scan(tail, lo, floor);
      assert r == floor || exists i :: 0 <= i < |tail| && r == tail[i].1;
      if r != floor {
        var i :| 0 <= i < |tail| && r == tail[i].1;
        assert tail[i] == table[i + 1];
      }
    }
  }

  /** The table agrees with the nested conditionals of `train`: the stop check first,
      then the table scanned from its highest threshold down. */
  lemma SelectRateIsTableScan(acc: real)
    ensures SelectRate(acc) == if acc > StopAbove then Stop else Rate(Scan(RateTable, acc, FloorRate))
  {
    var t0 := RateTable;
    var t1 := [(0.960, -0.05), (0.750, -0.1), (0.450, -0.5)];
    var t2 := [(0.750, -0.1), (0.450, -0.5)];
    var t3 := [(0.450, -0.5)];
    assert t0[1..] == t1 && t1[1..] == t2 && t2[1..] == t3 && t3[1..] == [];
    var r3 := Scan(t3, acc, FloorRate);
    assert r3 == if acc > 0.450 then -0.5 else -0.55;
    var r2 := Scan(t2, acc, FloorRate);
    assert r2 == if acc > 0.750 then -0.1 else r3;
    var r1 := Scan(t1, acc, FloorRate);
    assert r1 == if acc > 0.960 then -0.05 else r2;
    assert Scan(t0, acc, FloorRate) == if acc > 0.970 then -0.005 else r1;
  }

  /** The schedule anneals: a higher validation accuracy never gets a rate of larger
      magnitude, and once an accuracy stops, every higher one stops too. */
  lemma {:induction false} RateNeverGrowsWithAccuracy(lo: real, hi: real)
    requires lo <= hi
    ensures SelectRate(lo).Stop? ==> SelectRate(hi).Stop?
    ensures SelectRate(hi).Rate? ==> SelectRate(lo).Rate? && SelectRate(lo).alpha <= SelectRate(hi).alpha
  {
    SelectRateIsTableScan(lo);
    SelectRateIsTableScan(hi);
    assert Annealing(RateTable, FloorRate);
    ScanMonotone(RateTable, FloorRate, lo, hi);
  }

  /** Every comparison is strict: an accuracy equal to a threshold falls to the rate
      below it, so exactly 0.973 does not stop. */
  lemma ThresholdsAreStrict()
    ensures SelectRate(0.973) == Rate(-0.005)
    ensures SelectRate(0.970) == Rate(-0.05)
    ensures SelectRate(0.960) == Rate(-0.1)
    ensures SelectRate(0.750) == Rate(-0.5)
    ensures SelectRate(0.450) == Rate(-0.55)
  {
  }

  /** Accuracies 0.20, 0.80, 0.965, 0.972 and 0.975 get rates of non-increasing
      magnitude, and only 0.975 stops. */
  lemma SampleAccuracies()
    ensures SelectRate(0.20) == Rate(-0.55)
    ensures SelectRate(0.80) == Rate(-0.1)
    ensures SelectRate(0.965) == Rate(-0.05)
    ensures SelectRate(0.972) == Rate(-0.005)
    ensures SelectRate(0.975) == Stop
  {
  }

  /** Every parameter value has its declared shape. */
  predicate Shaped(p: Params<Matrix>)
  {
    && HasShape(p.w1, Layout.w1) && HasShape(p.b1, Layout.b1)
    && HasShape(p.w2, Layout.w2) && HasShape(p.b2, Layout.b2)
    && HasShape(p.w3, Layout.w3) && HasShape(p.b3, Layout.b3)
    && HasShape(p.w4, Layout.w4) && HasShape(p.b4, Layout.b4)
    && HasShape(p.w5, Layout.w5) && HasShape(p.b5, Layout.b5)
  }

  /** Every gradient has the shape of its parameter, as `nn.gradients` promises. */
  predicate GradsShaped(g: Grads<Matrix>)
  {
    && HasShape(g.w1, Layout.w1) && HasShape(g.b1, Layout.b1)
    && HasShape(g.w2, Layout.w2) && HasShape(g.b2, Layout.b2)
    && HasShape(g.w3, Layout.w3) && HasShape(g.b3, Layout.b3)
    && HasShape(g.w4, Layout.w4) && HasShape(g.b4, Layout.b4)
  }

  /** What the dataset and the engine supply for one batch: the gradients of the
      batch loss and the validation accuracy read after them. */
  datatype Batch = Batch(grads: Grads<Matrix>, acc: real)

  /** Every batch's gradients have their parameters' shapes. */
  predicate AllGradsShaped(batches: seq<Batch>)
  {
    forall i :: 0 <= i < |batches| ==> GradsShaped(batches[i].grads)
  }

  /** The eight updates of one batch with rate `alpha`: `w1` to `b4` move along their
      gradients; `w5` and `b5` have no gradient and keep their values. */
  function Step(p: Params<Matrix>, g: Grads<Matrix>, alpha: real): (r: Params<Matrix>)
    requires Shaped(p) && GradsShaped(g)
    ensures Shaped(r)
    ensures r.w5 == p.w5 && r.b5 == p.b5
  {
    Params(Update(p.w1, g.w1, alpha), Update(p.b1, g.b1, alpha),
           Update(p.w2, g.w2, alpha), Update(p.b2, g.b2, alpha),
           Update(p.w3, g.w3, alpha), Update(p.b3, g.b3, alpha),
           Update(p.w4, g.w4, alpha), Update(p.b4, g.b4, alpha),
           p.w5, p.b5)
  }

  /** The inner `for` loop of `train` over a sequence of batches: after a batch's
      gradients, the accuracy picks a decision; a stop returns before any update of
      that batch, a rate updates. Running out of batches is `Completed`. */
  function RunBatches(p: Params<Matrix>, batches: seq<Batch>): (r: Outcome<Params<Matrix>>)
    requires Shaped(p) && AllGradsShaped(batches)
    ensures Shaped(r.params)
    ensures r.Stopped? <==> exists i :: 0 <= i < |batches| && batches[i].acc > StopAbove
    decreases |batches|
  {
    if |batches| == 0 then Completed(p)
    else
      match SelectRate(batches[0].acc)
      case Stop => Stopped(p)
      case Rate(alpha) =>
        var r := RunBatches(Step(p, batches[0].grads, alpha), batches[1..]);
        assert forall i :: 1 <= i < |batches| ==> batches[i] == batches[1..][i - 1];
        r
  }

  /** The sum of the rates the selector picks for a run of batches none of which
      stops. */
  function RateSum(batches: seq<Batch>): real
    requires forall i :: 0 <= i < |batches| ==> batches[i].acc <= StopAbove
    decreases |batches|
  {
    if |batches| == 0 then 0.0
    else SelectRate(batches[0].acc).alpha + RateSum(batches[1..])
  }

  /** Each batch that does not stop applies its gradients once, at the rate the
      selector picks for its accuracy: batches that all carry the gradients `g` move
      `w1` to `b4` by the sum of their rates times `g`, and leave `w5` and `b5` as
      they were. */
  lemma {:induction false} SelectedRatesAddUp(p: Params<Matrix>, g: Grads<Matrix>, batches: seq<Batch>)
    requires Shaped(p) && GradsShaped(g)
    requires forall i :: 0 <= i < |batches| ==> batches[i].grads == g
    requires forall i :: 0 <= i < |batches| ==> batches[i].acc <= StopAbove
    ensures AllGradsShaped(batches)
    ensures var m := RateSum(batches);
            RunBatches(p, batches) ==
              Completed(Params(Update(p.w1, g.w1, m), Update(p.b1, g.b1, m),
                               Update(p.w2, g.w2, m), Update(p.b2, g.b2, m),
                               Update(p.w3, g.w3, m), Update(p.b3, g.b3, m),
                               Update(p.w4, g.w4, m), Update(p.b4, g.b4, m),
                               p.w5, p.b5))
    decreases |batches|
  {
    if |batches| == 0 {
      UpdateByZero(p.w1, g.w1); UpdateByZero(p.b1, g.b1);
      UpdateByZero(p.w2, g.w2); UpdateByZero(p.b2, g.b2);
      UpdateByZero(p.w3, g.w3); UpdateByZero(p.b3, g.b3);
      UpdateByZero(p.w4, g.w4); UpdateByZero(p.b4, g.b4);
    } else {
      var a := SelectRate(batches[0].acc).alpha;
      var m := RateSum(batches[1..]);
      SelectedRatesAddUp(Step(p, g, a), g, batches[1..]);
      UpdateAdditive(p.w1, g.w1, a, m); UpdateAdditive(p.b1, g.b1, a, m);
      UpdateAdditive(p.w2, g.w2, a, m); UpdateAdditive(p.b2, g.b2, a, m);
      UpdateAdditive(p.w3, g.w3, a, m); UpdateAdditive(p.b3, g.b3, a, m);
      UpdateAdditive(p.w4, g.w4, a, m); UpdateAdditive(p.b4, g.b4, a, m);
    }
  }

  /** `w5` and `b5` are never trained: whatever the batches, they end as they began. */
  lemma {:induction false} FinalLayerFrozen(p: Params<Matrix>, batches: seq<Batch>)
    requires Shaped(p) && AllGradsShaped(batches)
    ensures RunBatches(p, batches).params.w5 == p.w5
    ensures RunBatches(p, batches).params.b5 == p.b5
    decreases |batches|
  {
    if |batches| > 0 && SelectRate(batches[0].acc).Rate? {
      FinalLayerFrozen(Step(p, batches[0].grads, SelectRate(batches[0].acc).alpha), batches[1..]);
    }
  }

  /** `train` returns on the first batch whose accuracy exceeds 0.973, with the
      parameters exactly as the batches before it left them: that batch's gradients
      are never applied. */
  lemma {:induction false} StopsBeforeUpdating(p: Params<Matrix>, batches: seq<Batch>, k: nat)
    requires Shaped(p) && AllGradsShaped(batches)
    requires k < |batches| && batches[k].acc > StopAbove
    requires forall i :: 0 <= i < k ==> batches[i].acc <= StopAbove
    ensures RunBatches(p, batches[..k]).Completed?
    ensures RunBatches(p, batches) == Stopped(RunBatches(p, batches[..k]).params)
    decreases k
  {
    if k > 0 {
      var p' := Step(p, batches[0].grads, SelectRate(batches[0].acc).alpha);
      assert batches[..k][1..] == batches[1..][..k - 1];
      StopsBeforeUpdating(p', batches[1..], k - 1);
    }
  }

  /** The `while True` around the passes adds nothing: training pass after pass is
      training on all their batches in one sequence. */
  lemma {:induction false} PassesAreOneSequence(p: Params<Matrix>, passes: seq<seq<Batch>>)
    requires Shaped(p) && AllGradsShaped(Flatten(passes))
    ensures RunBatches(p, Flatten(passes)) == Train(p, passes)
    decreases |passes|
  {
    if |passes| > 0 {
      ContinueAfter(p, passes[0], Flatten(passes[1..]));
      var first := RunBatches(p, passes[0]);
      if first.Completed? {
        PassesAreOneSequence(first.params, passes[1..]);
      }
    }
  }

  /** Training on `xs + ys` is training on `xs`, then, unless that stopped, on `ys`. */
  lemma {:induction false} ContinueAfter(p: Params<Matrix>, xs: seq<Batch>, ys: seq<Batch>)
    requires Shaped(p) && AllGradsShaped(xs + ys)
    ensures AllGradsShaped(xs) && AllGradsShaped(ys)
    ensures RunBatches(p, xs + ys) ==
              match RunBatches(p, xs)
              case Stopped(q) => Stopped(q)
              case Completed(q) => RunBatches(q, ys)
    decreases |xs|
  {
    assert forall i :: 0 <= i < |xs| ==> xs[i] == (xs + ys)[i];
    assert forall i :: 0 <= i < |ys| ==> ys[i] == (xs + ys)[|xs| + i];
    if |xs| > 0 {
      assert (xs + ys)[1..] == xs[1..] + ys;
      if SelectRate(xs[0].acc).Rate? {
        ContinueAfter(Step(p, xs[0].grads, SelectRate(xs[0].acc).alpha), xs[1..], ys);
      }
    } else {
      assert xs + ys == ys;
    }
  }

  /** `train`: the `for` loop over the batches of each pass inside a `while True`
      over the passes. The source loops without bound; here the passes are supplied,
      and running out of them is `Completed`. Whatever happens, `w5` and `b5` end as
      they began. */
  function Train(p: Params<Matrix>, passes: seq<seq<Batch>>): (r: Outcome<Params<Matrix>>)
    requires Shaped(p) && AllGradsShaped(Flatten(passes))
    ensures Shaped(r.params)
    ensures r.params.w5 == p.w5 && r.params.b5 == p.b5
    decreases |passes|
  {
    if |passes| == 0 then Completed(p)
    else
      ContinueAfter(p, passes[0], Flatten(passes[1..]));
      FinalLayerFrozen(p, passes[0]);
      match RunBatches(p, passes[0])
      case Stopped(q) => Stopped(q)
      case Completed(q) => Train(q, passes[1..])
  }
}
