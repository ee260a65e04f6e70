/**
 * Batch gradient descent (BGD): starting from a copy of the initial parameters,
 * repeat params := params - rate * deriv(params) until tMax epochs have run or
 * the squared norm of the last gradient fell below epsilon. Every epoch is
 * reported to the optimiser's listeners, modelled here as a ghost log.
 */
module Bgd {

  // ---------------------------------------------------------------------------
  // Vectors of parameters
  // ---------------------------------------------------------------------------

  /** Every coordinate multiplied by f. */
  function Scale(x: seq<real>, f: real): seq<real> {
    seq(|x|, i requires 0 <= i < |x| => f * x[i])
  }

  /** Coordinatewise difference of two vectors of the same length. */
  function Minus(x: seq<real>, y: seq<real>): seq<real>
    requires |x| == |y|
  {
    seq(|x|, i requires 0 <= i < |x| => x[i] - y[i])
  }

  /** The sum of the squares of the first n coordinates. */
  function SumSquares(x: seq<real>, n: nat): real
    requires n <= |x|
  {
    if n == 0 then 0.0 else SumSquares(x, n - 1) + x[n - 1] * x[n - 1]
  }

  function SquaredNormOf(x: seq<real>): real {
    SumSquares(x, |x|)
  }

  lemma {:induction false} SumSquaresNonNegative(x: seq<real>, n: nat)
    requires n <= |x|
    ensures SumSquares(x, n) >= 0.0
  {
    if n > 0 {
      SumSquaresNonNegative(x, n - 1);
      assert x[n - 1] * x[n - 1] >= 0.0;
    }
  }

  /** A vector of parameters, updated in place by the optimiser. */
  class OptParam {
    var values: array<real>

    constructor FromSeq(s: seq<real>)
      ensures fresh(values) && values[..] == s
    {
      values := new real[|s|](i requires 0 <= i < |s| => s[i]);
    }

    /** copy(): a new vector with its own storage and the same coordinates. */
    method Copy() returns (c: OptParam)
      ensures fresh(c) && fresh(c.values) && c.values[..] == values[..]
    {
      c := new OptParam.FromSeq(values[..]);
    }

    /** multiply_s(f): scales this vector in place. */
    method MultiplyS(f: real)
      modifies values
      ensures values[..] == Scale(old(values[..]), f)
    {
      ghost var before := values[..];
      for i := 0 to values.Length
        invariant forall j :: 0 <= j < i ==> values[j] == f * before[j]
        invariant forall j :: i <= j < values.Length ==> values[j] == before[j]
      {
        values[i] := f * values[i];
      }
      assert forall j :: 0 <= j < values.Length ==> values[..][j] == Scale(before, f)[j];
    }

    /** sub_s(o): subtracts o from this vector in place; o may share its storage. */
    method SubS(o: OptParam)
      requires o.values.Length == values.Length
      modifies values
      ensures values[..] == Minus(old(values[..]), old(o.values[..]))
    {
      for i := 0 to values.Length
        invariant forall j :: 0 <= j < i ==> values[j] == old(values[j]) - old(o.values[j])
        invariant forall j :: i <= j < values.Length ==> values[j] == old(values[j])
        invariant forall j :: i <= j < values.Length ==> o.values[j] == old(o.values[j])
      {
        values[i] := values[i] - o.values[i];
      }
    }

    /** squaredNorm(): the sum of the squares of the coordinates. */
    method SquaredNorm() returns (s: real)
      ensures s == SquaredNormOf(values[..])
      ensures s >= 0.0
    {
      s := 0.0;
      for i := 0 to values.Length
        invariant s == SumSquares(values[..], i)
      {
        s := s + values[i] * values[i];
      }
      SumSquaresNonNegative(values[..], values.Length);
    }
  }

  // ---------------------------------------------------------------------------
  // Cost functions and the specification of a run
  // ---------------------------------------------------------------------------

  /** A differentiable cost function over parameter vectors. */
  datatype CostFunction = CostFunction(error: seq<real> -> real, deriv: seq<real> -> seq<real>)

  /**
   * A cost function that is a sum over examples. BGD only uses the whole-set
   * error and derivative, which is what `whole` holds.
   */
  datatype SeparableCostFunction = SeparableCostFunction(
    whole: CostFunction,
    size: nat,
    exampleError: (seq<real>, nat) -> real,
    exampleDeriv: (seq<real>, nat) -> seq<real>)

  /** The gradient of cf has the shape of its argument, for vectors of n coordinates. */
  ghost predicate Shaped(cf: CostFunction, n: nat) {
    forall x: seq<real> :: |x| == n ==> |cf.deriv(x)| == n
  }

  /** One gradient step from x: each coordinate moves by -rate times its partial derivative. */
  function Step(cf: CostFunction, rate: real, x: seq<real>): seq<real>
    requires Shaped(cf, |x|)
  {
    Minus(x, Scale(cf.deriv(x), rate))
  }

  /** Where the gradient vanishes, a step leaves the parameters where they are. */
  lemma StationaryPointIsFixed(cf: CostFunction, rate: real, x: seq<real>)
    requires Shaped(cf, |x|)
    requires forall i :: 0 <= i < |x| ==> cf.deriv(x)[i] == 0.0
    ensures Step(cf, rate, x) == x
  {
    assert forall i :: 0 <= i < |x| ==> Step(cf, rate, x)[i] == x[i];
  }

  /** The bound diff that the stop test compares with epsilon; it starts at the largest double. */
  datatype Bound = Infinity | Finite(value: real)

  predicate AtLeast(b: Bound, epsilon: real) {
    b.Infinity? || b.value >= epsilon
  }

  /** What notifyEpoch receives: the parameters after the epoch's step and their error. */
  datatype Epoch = Epoch(params: seq<real>, err: real)

  /**
   * The epochs of a run from x with `budget` epochs left and the previous
   * gradient's squared norm `diff`.
   */
  function Run(cf: CostFunction, rate: real, epsilon: real, x: seq<real>, budget: int, diff: Bound): seq<Epoch>
    requires Shaped(cf, |x|)
    decreases budget
  {
    if budget <= 0 || !AtLeast(diff, epsilon) then []
    else
      var y := Step(cf, rate, x);
      [Epoch(y, cf.error(y))] + Run(cf, rate, epsilon, y, budget - 1, Finite(SquaredNormOf(cf.deriv(x))))
  }

  /** A run with budget left and a diff of at least epsilon starts with one epoch. */
  lemma RunUnfolds(cf: CostFunction, rate: real, epsilon: real, x: seq<real>, budget: int, diff: Bound)
    requires Shaped(cf, |x|) && budget > 0 && AtLeast(diff, epsilon)
    ensures var y := Step(cf, rate, x);
      Run(cf, rate, epsilon, x, budget, diff) ==
        [Epoch(y, cf.error(y))] + Run(cf, rate, epsilon, y, budget - 1, Finite(SquaredNormOf(cf.deriv(x))))
  {
  }

  /** The parameters a run returns: those of its last epoch, or x when there was none. */
  function Final(x: seq<real>, log: seq<Epoch>): seq<real> {
    if log == [] then x else log[|log| - 1].params
  }

  /** The parameters epoch t starts from. */
  function Before(x: seq<real>, log: seq<Epoch>, t: int): seq<real>
    requires 0 <= t <= |log|
  {
    if t == 0 then x else log[t - 1].params
  }

  // ---------------------------------------------------------------------------
  // Properties of a run
  // ---------------------------------------------------------------------------

  /** At most `budget` epochs, and the first one always runs while diff is unbounded. */
  lemma {:induction false} RunLength(cf: CostFunction, rate: real, epsilon: real, x: seq<real>, budget: int, diff: Bound)
    requires Shaped(cf, |x|)
    ensures |Run(cf, rate, epsilon, x, budget, diff)| <= (if budget < 0 then 0 else budget)
    ensures budget <= 0 ==> Run(cf, rate, epsilon, x, budget, diff) == []
    ensures budget > 0 && diff == Infinity ==> |Run(cf, rate, epsilon, x, budget, diff)| >= 1
    decreases budget
  {
    if budget > 0 && AtLeast(diff, epsilon) {
      var y := Step(cf, rate, x);
      RunLength(cf, rate, epsilon, y, budget - 1, Finite(SquaredNormOf(cf.deriv(x))));
    }
  }

  /** Every epoch of log applies one gradient step to the parameters before it and reports their error. */
  ghost predicate StepByStep(cf: CostFunction, rate: real, x: seq<real>, log: seq<Epoch>) {
    forall t :: 0 <= t < |log| ==>
      Shaped(cf, |Before(x, log, t)|) && log[t].params == Step(cf, rate, Before(x, log, t)) &&
      log[t].err == cf.error(log[t].params)
  }

  lemma {:induction false} EpochsAreSteps(cf: CostFunction, rate: real, epsilon: real, x: seq<real>, budget: int, diff: Bound)
    requires Shaped(cf, |x|)
    ensures StepByStep(cf, rate, x, Run(cf, rate, epsilon, x, budget, diff))
    decreases budget
  {
    var log := Run(cf, rate, epsilon, x, budget, diff);
    if log != [] {
      var y := Step(cf, rate, x);
      var rest := Run(cf, rate, epsilon, y, budget - 1, Finite(SquaredNormOf(cf.deriv(x))));
      EpochsAreSteps(cf, rate, epsilon, y, budget - 1, Finite(SquaredNormOf(cf.deriv(x))));
      assert log == [Epoch(y, cf.error(y))] + rest;
      forall t | 0 <= t < |log|
        ensures Shaped(cf, |Before(x, log, t)|) && log[t].params == Step(cf, rate, Before(x, log, t)) &&
          log[t].err == cf.error(log[t].params)
      {
        if t > 0 {
          assert Before(x, log, t) == Before(y, rest, t - 1) && log[t] == rest[t - 1];
        } else {
          assert Before(x, log, t) == x && log[t] == Epoch(y, cf.error(y));
        }
      }
    }
  }

  /**
   * The stop test: an epoch is followed by another only if its gradient's
   * squared norm reached epsilon, and a run that ends before its budget ends
   * because the last gradient's squared norm was below epsilon.
   */
  lemma {:induction false} RunStopsOnEpsilon(cf: CostFunction, rate: real, epsilon: real, x: seq<real>, budget: int, diff: Bound)
    requires Shaped(cf, |x|)
    ensures var log := Run(cf, rate, epsilon, x, budget, diff);
      forall t :: 0 <= t < |log| ==> |Before(x, log, t)| == |x|
    ensures var log := Run(cf, rate, epsilon, x, budget, diff);
      forall t :: 0 <= t < |log| - 1 ==> SquaredNormOf(cf.deriv(Before(x, log, t))) >= epsilon
    ensures var log := Run(cf, rate, epsilon, x, budget, diff);
      0 < |log| < budget ==> SquaredNormOf(cf.deriv(Before(x, log, |log| - 1))) < epsilon
    decreases budget
  {
    var log := Run(cf, rate, epsilon, x, budget, diff);
    if log != [] {
      var g := SquaredNormOf(cf.deriv(x));
      var y := Step(cf, rate, x);
      var rest := Run(cf, rate, epsilon, y, budget - 1, Finite(g));
      RunStopsOnEpsilon(cf, rate, epsilon, y, budget - 1, Finite(g));
      assert log == [Epoch(y, cf.error(y))] + rest;
      forall t | 1 <= t < |log|
        ensures Before(x, log, t) == Before(y, rest, t - 1)
      {
      }
      if rest != [] {
        assert g >= epsilon;
      }
    }
  }

  /** squaredNorm is never negative, so a negative epsilon never stops a run early. */
  lemma {:induction false} NegativeEpsilonRunsFully(cf: CostFunction, rate: real, epsilon: real, x: seq<real>, budget: int, diff: Bound)
    requires Shaped(cf, |x|) && epsilon < 0.0 && AtLeast(diff, epsilon)
    ensures |Run(cf, rate, epsilon, x, budget, diff)| == (if budget < 0 then 0 else budget)
    decreases budget
  {
    if budget > 0 {
      var y := Step(cf, rate, x);
      SumSquaresNonNegative(cf.deriv(x), |cf.deriv(x)|);
      NegativeEpsilonRunsFully(cf, rate, epsilon, y, budget - 1, Finite(SquaredNormOf(cf.deriv(x))));
    }
  }

  // ---------------------------------------------------------------------------
  // The optimiser
  // ---------------------------------------------------------------------------

  class BGD {
    var learningRate: real
    var epsilon: real
    var tMax: int
    /** The epochs reported through notifyEpoch so far. */
    ghost var epochs: seq<Epoch>

    constructor (learningRate: real, epsilon: real, tMax: int)
      ensures this.learningRate == learningRate && this.epsilon == epsilon && this.tMax == tMax
      ensures epochs == []
    {
      this.learningRate := learningRate;
      this.epsilon := epsilon;
      this.tMax := tMax;
      epochs := [];
    }

    /** notifyEpoch(params, err): reports one epoch to the listeners. */
    method NotifyEpoch(params: seq<real>, err: real)
      modifies this
      ensures epochs == old(epochs) + [Epoch(params, err)]
      ensures learningRate == old(learningRate) && epsilon == old(epsilon) && tMax == old(tMax)
    {
      epochs := epochs + [Epoch(params, err)];
    }

    /**
     * The body of the loop of optimize: one gradient step on params in place,
     * then the report of the new parameters and their error. sq is the
     * squared norm of the gradient taken before the step.
     */
    method Descend(cf: CostFunction, params: OptParam) returns (sq: real, err: real)
      requires Shaped(cf, params.values.Length)
      modifies this, params.values
      ensures params.values[..] == Step(cf, learningRate, old(params.values[..]))
      ensures sq == SquaredNormOf(cf.deriv(old(params.values[..])))
      ensures err == cf.error(params.values[..])
      ensures epochs == old(epochs) + [Epoch(params.values[..], err)]
      ensures learningRate == old(learningRate) && epsilon == old(epsilon) && tMax == old(tMax)
    {
      var grad := new OptParam.FromSeq(cf.deriv(params.values[..]));
      sq := grad.SquaredNorm();
      grad.MultiplyS(learningRate);
      params.SubS(grad);
      err := cf.error(params.values[..]);
      NotifyEpoch(params.values[..], err);
    }

    /**
     * optimize(cf, initParams): runs gradient descent on a copy of initParams.
     * The reported epochs are those of Run, the result is the parameters of
     * the last one, and initParams is left as it was.
     */
    method Optimize(cf: CostFunction, init: OptParam) returns (result: OptParam)
      requires Shaped(cf, init.values.Length)
      modifies this
      ensures fresh(result) && fresh(result.values)
      ensures init.values[..] == old(init.values[..])
      ensures learningRate == old(learningRate) && epsilon == old(epsilon) && tMax == old(tMax)
      ensures epochs == old(epochs) + Run(cf, learningRate, epsilon, init.values[..], tMax, Infinity)
      ensures result.values[..] == Final(init.values[..], Run(cf, learningRate, epsilon, init.values[..], tMax, Infinity))
    {
      var params := init.Copy();
      var rate, eps, tmax := learningRate, epsilon, tMax;
      ghost var x0 := init.values[..];
      ghost var run := Run(cf, rate, eps, x0, tmax, Infinity);
      ghost var log: seq<Epoch> := [];
      var err := cf.error(params.values[..]);
      var diff := Infinity;
      var t := 0;
      while t < tmax && AtLeast(diff, eps)
        invariant fresh(params) && fresh(params.values) && params.values.Length == |x0|
        invariant learningRate == rate && epsilon == eps && tMax == tmax
        invariant run == log + Run(cf, rate, eps, params.values[..], tmax - t, diff)
        invariant params.values[..] == Final(x0, log)
        invariant epochs == old(epochs) + log
        decreases tmax - t
      {
        ghost var cur, before := params.values[..], diff;
        var sq;
        sq, err := Descend(cf, params);
        ghost var e := Epoch(params.values[..], err);
        RunUnfolds(cf, rate, eps, cur, tmax - t, before);
        diff := Finite(sq);
        assert run == (log + [e]) + Run(cf, rate, eps, e.params, tmax - (t + 1), diff);
        log := log + [e];
        t := t + 1;
      }
      assert run == log;
      result := params;
    }

    /** optimize(SeparableCostFunction, initParams): the same run on the whole-set cost function. */
    method OptimizeSeparable(cf: SeparableCostFunction, init: OptParam) returns (result: OptParam)
      requires Shaped(cf.whole, init.values.Length)
      modifies this
      ensures fresh(result) && fresh(result.values)
      ensures init.values[..] == old(init.values[..])
      ensures learningRate == old(learningRate) && epsilon == old(epsilon) && tMax == old(tMax)
      ensures epochs == old(epochs) + Run(cf.whole, learningRate, epsilon, init.values[..], tMax, Infinity)
      ensures result.values[..] ==
        Final(init.values[..], Run(cf.whole, learningRate, epsilon, init.values[..], tMax, Infinity))
    {
      result := Optimize(cf.whole, init);
    }
  }
}
