/** Pieces shared by the training loops. */
module Training {

  /** How a training loop that checks a stopping condition before every batch ends:
      it returned early with `Stopped`, or it ran out of batches with `Completed`. */
  datatype Outcome<P> = Stopped(params: P) | Completed(params: P)

  /** How a training loop that runs whole passes while a condition holds ends: the
      condition failed after `passesRun` passes (`Converged`), or the passes given ran
      out first (`OutOfPasses`). `state` is the loop state at the exit. */
  datatype Exit<S> = Converged(state: S, passesRun: nat) | OutOfPasses(state: S)

  /** The state after the first `k` passes of a loop whose body maps a state and the
      data of one pass to the next state. */
  function Iterate<S, D>(body: (S, D) -> S, s: S, passes: seq<D>, k: nat): S
    requires k <= |passes|
    decreases k
  {
    if k == 0 then s else body(Iterate(body, s, passes, k - 1), passes[k - 1])
  }

  /** Running the first pass and then `k` more is running `k + 1` passes. */
  lemma {:induction false} IterateShift<S, D>(body: (S, D) -> S, s: S, passes: seq<D>, k: nat)
    requires k < |passes|
    ensures Iterate(body, s, passes, k + 1) == Iterate(body, body(s, passes[0]), passes[1..], k)
    decreases k
  {
    if k > 0 {
      IterateShift(body, s, passes, k - 1);
      assert passes[1..][k - 1] == passes[k];
    }
  }

  /** `while keep(s): s := body(s, next pass)`, over the passes given. The loop runs a
      pass exactly while the condition holds: every pass it runs started with the
      condition true, it stops at the first state where the condition is false, and
      a run that runs out of passes had the condition true throughout. The final
      state is the one the passes run leave. */
  function RunWhile<S, D>(keep: S -> bool, body: (S, D) -> S, s: S, passes: seq<D>): (r: Exit<S>)
    ensures r.Converged? <==> !keep(r.state)
    ensures r.Converged? ==> r.passesRun <= |passes|
    ensures r.state == Iterate(body, s, passes, if r.Converged? then r.passesRun else |passes|)
    ensures r.Converged? ==> forall k :: 0 <= k < r.passesRun ==> keep(Iterate(body, s, passes, k))
    ensures r.OutOfPasses? ==> forall k :: 0 <= k <= |passes| ==> keep(Iterate(body, s, passes, k))
    decreases |passes|
  {
    if !keep(s) then Converged(s, 0)
    else if |passes| == 0 then OutOfPasses(s)
    else
      var t := body(s, passes[0]);
      forall k | 1 <= k <= |passes|
        ensures Iterate(body, s, passes, k) == Iterate(body, t, passes[1..], k - 1)
      {
        IterateShift(body, s, passes, k - 1);
      }
      match RunWhile(keep, body, t, passes[1..])
      case Converged(u, n) => Converged(u, n + 1)
      case OutOfPasses(u) => OutOfPasses(u)
  }

  /** The batches of several passes over the dataset, one pass after the other. */
  function Flatten<B>(passes: seq<seq<B>>): seq<B>
  {
    if |passes| == 0 then [] else passes[0] + Flatten(passes[1..])
  }
}
