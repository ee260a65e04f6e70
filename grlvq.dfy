/**
 * The GRLVQ cost function: the margin loss (dj - dk) / (dj + dk) of a
 * labelled example, where dj is the distance to the closest prototype of the
 * example's own class and dk the distance to the closest prototype of another
 * class, summed over a data set, together with its gradient and the diagonal of
 * its Hessian with respect to the prototypes and the relevance weights.
 *
 * Parameters are read as a value; the buffers the derivatives are accumulated
 * into are objects whose arrays the operations update in place.
 */
module GrlvqCost {
  import opened Wrappers

  // ---------------------------------------------------------------------------
  // Data
  // ---------------------------------------------------------------------------

  /** A GRLVQ parameter vector: one prototype per row and one relevance weight per dimension. */
  datatype ParamValue = ParamValue(prototypes: seq<seq<real>>, weights: seq<real>)

  /** The number of dimensions: the length of the weight vector. */
  function Dims(v: ParamValue): nat {
    |v.weights|
  }

  /** Every prototype has one coordinate per dimension. */
  predicate Shaped(v: ParamValue) {
    forall r :: 0 <= r < |v.prototypes| ==> |v.prototypes[r]| == Dims(v)
  }

  /** Examples and their class labels. */
  datatype LabeledDataSet = LabeledDataSet(data: seq<seq<real>>, labels: seq<int>)

  /**
   * What the cost function asks of its parameters: the weighted distance from
   * prototype j to a point, and the index of the closest prototype of the
   * example's class (closestCorrect) or of another class (closestIncorrect),
   * given the point, its label and its index in the data set.
   */
  datatype Queries = Queries(
    dist: (ParamValue, int, seq<real>) -> real,
    closestCorrect: (ParamValue, seq<real>, int, int) -> int,
    closestIncorrect: (ParamValue, seq<real>, int, int) -> int)

  datatype CostFunction = CostFunction(ds: LabeledDataSet, q: Queries)

  /** size(): the number of examples. */
  function Size(cf: CostFunction): nat {
    |cf.ds.data|
  }

  /** The two prototypes an example is compared with, and its distances to them. */
  datatype Nearest = Nearest(j: int, k: int, dj: real, dk: real)

  predicate InDataSet(cf: CostFunction, i: int) {
    0 <= i < Size(cf) && i < |cf.ds.labels|
  }

  function NearestOf(cf: CostFunction, v: ParamValue, i: int): Nearest
    requires InDataSet(cf, i)
  {
    var x := cf.ds.data[i];
    var cls := cf.ds.labels[i];
    var j := cf.q.closestCorrect(v, x, cls, i);
    var k := cf.q.closestIncorrect(v, x, cls, i);
    Nearest(j, k, cf.q.dist(v, j, x), cf.q.dist(v, k, x))
  }

  /** The loss of example i is defined: the two distances do not sum to zero. */
  predicate ErrorDefined(cf: CostFunction, v: ParamValue, i: int) {
    InDataSet(cf, i) && NearestOf(cf, v, i).dj + NearestOf(cf, v, i).dk != 0.0
  }

  /**
   * The derivatives of example i are defined: its loss is, both prototypes
   * exist, and the example has a coordinate for every dimension.
   */
  predicate ExampleAdmissible(cf: CostFunction, v: ParamValue, i: int) {
    && ErrorDefined(cf, v, i)
    && Shaped(v)
    && Dims(v) <= |cf.ds.data[i]|
    && 0 <= NearestOf(cf, v, i).j < |v.prototypes|
    && 0 <= NearestOf(cf, v, i).k < |v.prototypes|
  }

  // ---------------------------------------------------------------------------
  // The loss
  // ---------------------------------------------------------------------------

  function Abs(x: real): real {
    if x < 0.0 then -x else x
  }

  /** error(params, i) */
  function ExampleError(cf: CostFunction, v: ParamValue, i: int): real
    requires ErrorDefined(cf, v, i)
  {
    var n := NearestOf(cf, v, i);
    (n.dj - n.dk) / (n.dk + n.dj)
  }

  /** The loss of an example lies in [-1, 1] and is negative exactly when it is closer to its own class. */
  lemma ExampleErrorBounds(cf: CostFunction, v: ParamValue, i: int)
    requires ErrorDefined(cf, v, i)
    requires NearestOf(cf, v, i).dj >= 0.0 && NearestOf(cf, v, i).dk >= 0.0
    ensures -1.0 <= ExampleError(cf, v, i) <= 1.0
    ensures ExampleError(cf, v, i) < 0.0 <==> NearestOf(cf, v, i).dj < NearestOf(cf, v, i).dk
    ensures ExampleError(cf, v, i) == 0.0 <==> NearestOf(cf, v, i).dj == NearestOf(cf, v, i).dk
  {
    var n := NearestOf(cf, v, i);
    QuotientBounds(n.dj, n.dk, ExampleError(cf, v, i));
  }

  /** A product with a positive factor keeps the sign of the other factor. */
  lemma SignOfProduct(e: real, s: real)
    requires s > 0.0
    ensures e < 0.0 ==> e * s < 0.0
    ensures e > 0.0 ==> e * s > 0.0
  {
  }

  /** (a - b) / (a + b) for non-negative a, b lies in [-1, 1] and has the sign of a - b. */
  lemma QuotientBounds(a: real, b: real, e: real)
    requires a >= 0.0 && b >= 0.0 && b + a != 0.0 && e == (a - b) / (b + a)
    ensures -1.0 <= e <= 1.0
    ensures e < 0.0 <==> a < b
    ensures e == 0.0 <==> a == b
  {
    var s := b + a;
    assert e * s == a - b;
    SignOfProduct(e, s);
    SignOfProduct(e - 1.0, s);
    SignOfProduct(e + 1.0, s);
    assert (e - 1.0) * s == e * s - s;
    assert (e + 1.0) * s == e * s + s;
  }

  /** The loss summed over the first n examples. */
  function ErrorSum(cf: CostFunction, v: ParamValue, n: nat): real
    requires n <= Size(cf)
    requires forall i :: 0 <= i < n ==> ErrorDefined(cf, v, i)
  {
    if n == 0 then 0.0 else ErrorSum(cf, v, n - 1) + ExampleError(cf, v, n - 1)
  }

  /** With non-negative distances the summed loss lies within [-n, n]. */
  lemma {:induction false} ErrorSumBounds(cf: CostFunction, v: ParamValue, n: nat)
    requires n <= Size(cf)
    requires forall i :: 0 <= i < n ==> ErrorDefined(cf, v, i) && NearestOf(cf, v, i).dj >= 0.0 && NearestOf(cf, v, i).dk >= 0.0
    ensures -(n as real) <= ErrorSum(cf, v, n) <= n as real
  {
    if n > 0 {
      ErrorSumBounds(cf, v, n - 1);
      ExampleErrorBounds(cf, v, n - 1);
    }
  }

  /** When every example is closer to its own class than to any other, the summed loss is negative. */
  lemma {:induction false} ErrorSumNegativeWhenAllCorrect(cf: CostFunction, v: ParamValue, n: nat)
    requires 0 < n <= Size(cf)
    requires forall i :: 0 <= i < n ==> ErrorDefined(cf, v, i) && 0.0 <= NearestOf(cf, v, i).dj < NearestOf(cf, v, i).dk
    ensures ErrorSum(cf, v, n) < 0.0
  {
    ExampleErrorBounds(cf, v, n - 1);
    if n > 1 {
      ErrorSumNegativeWhenAllCorrect(cf, v, n - 1);
    }
  }

  /** error(params): the loss summed over the data set. */
  method Error(cf: CostFunction, v: ParamValue) returns (out: real)
    requires forall i :: 0 <= i < Size(cf) ==> ErrorDefined(cf, v, i)
    ensures out == ErrorSum(cf, v, Size(cf))
  {
    out := 0.0;
    var size := Size(cf);
    for i := 0 to size
      invariant out == ErrorSum(cf, v, i)
    {
      out := out + ExampleError(cf, v, i);
    }
  }

  // ---------------------------------------------------------------------------
  // The derivative algebra of the margin loss
  // ---------------------------------------------------------------------------

  /** The tolerance of the self-checks. */
  const Tolerance: real := 0.0001

  /** firstDerivLVQ: the derivative of (dj - dk) / (dj + dk) given the derivatives djP, dkP of the distances. */
  function FirstDerivLVQ(dj: real, dk: real, djP: real, dkP: real): real
    requires dj + dk != 0.0
  {
    var dSum := dj + dk;
    2.0 * (dk * djP - dj * dkP) / (dSum * dSum)
  }

  /** secondDerivLVQ, with the second derivatives djPP, dkPP of the distances. */
  function SecondDerivLVQ(dj: real, dk: real, djP: real, dkP: real, djPP: real, dkPP: real): real
    requires dj + dk != 0.0
  {
    var dSum := dj + dk;
    (djPP - dkPP) / (dj + dk) - 2.0 * (djP * djP - dkP * dkP) / (dSum * dSum)
      + (dj - dk) * (2.0 * (djP - dkP) * (djP - dkP) / (dSum * dSum * dSum) - (djPP + dkPP) / (dSum * dSum))
  }

  /** Division by a non-zero square or cube is multiplication by its reciprocal. */
  lemma Reciprocals(s: real, y: real)
    requires s != 0.0
    ensures y / (s * s) == y * (1.0 / (s * s))
    ensures y / (s * s * s) == y * (1.0 / (s * s * s))
    ensures (1.0 / (s * s * s)) * s == 1.0 / (s * s)
    ensures y / s == y * (1.0 / s)
  {
    var r := 1.0 / s;
    assert s * r == 1.0;
    assert 1.0 / (s * s) == r * r;
    assert 1.0 / (s * s * s) == r * r * r;
  }

  /**
   * firstDerivLVQ is the quotient rule applied to (dj - dk) / (dj + dk): times
   * the squared denominator it gives (djP - dkP)(dj + dk) - (dj - dk)(djP + dkP).
   */
  lemma FirstDerivIsQuotientRule(dj: real, dk: real, djP: real, dkP: real)
    requires dj + dk != 0.0
    ensures FirstDerivLVQ(dj, dk, djP, dkP) * ((dj + dk) * (dj + dk))
         == (djP - dkP) * (dj + dk) - (dj - dk) * (djP + dkP)
  {
    Reciprocals(dj + dk, 2.0 * (dk * djP - dj * dkP));
    Reciprocals(dj + dk, 1.0);
    assert (1.0 / ((dj + dk) * (dj + dk))) * ((dj + dk) * (dj + dk)) == 1.0;
  }

  /** The second derivative of num / den by the quotient rule, from the derivatives of both. */
  function QuotientSecondDeriv(num: real, den: real, numP: real, denP: real, numPP: real, denPP: real): real
    requires den != 0.0
  {
    numPP / den - (2.0 * numP * denP + num * denPP) / (den * den) + 2.0 * num * denP * denP / (den * den * den)
  }

  /** Division is multiplication by the reciprocal. */
  lemma DivisionByReciprocal(x: real, d: real)
    requires d != 0.0
    ensures x / d == x * (1.0 / d)
  {
  }

  /** The square and cube of the non-zero sum dj + dk are non-zero. */
  lemma SumPowersNonZero(dj: real, dk: real)
    requires dj + dk != 0.0
    ensures (dj + dk) * (dj + dk) != 0.0 && (dj + dk) * (dj + dk) * (dj + dk) != 0.0
  {
    assert (dj + dk) * (dj + dk) * (dj + dk) != 0.0;
  }

  /**
   * The two second derivatives differ by 8 (dj - dk) a b r3, whatever the
   * reciprocals r2 and r3: each quotient qi is its numerator xi times one of them.
   */
  lemma SecondDerivPolynomial(dj: real, dk: real, a: real, b: real, pp: real, qq: real, r2: real, r3: real,
                              x1: real, x2: real, x3: real, x4: real, x5: real, x6: real,
                              q1: real, q2: real, q3: real, q4: real, q5: real, q6: real)
    requires x1 == 2.0 * (a * a - b * b) && x2 == 2.0 * (a - b) * (a - b) && x3 == pp + qq
    requires x4 == 2.0 * (a - b) * (a + b) + (dj - dk) * (pp + qq)
    requires x5 == 2.0 * (dj - dk) * (a + b) * (a + b) && x6 == 8.0 * (dj - dk) * a * b
    requires q1 == x1 * r2 && q2 == x2 * r3 && q3 == x3 * r2 && q4 == x4 * r2 && q5 == x5 * r3 && q6 == x6 * r3
    ensures -q1 + (dj - dk) * (q2 - q3) == -q4 + q5 - q6
  {
    assert x4 == x1 + (dj - dk) * x3;
    assert (dj - dk) * x2 == x5 - x6 by {
      assert (a + b) * (a + b) - 4.0 * a * b == (a - b) * (a - b);
    }
  }

  /** The two second derivatives below with the quotients written out. */
  lemma SecondDerivAlgebra(dj: real, dk: real, djP: real, dkP: real, djPP: real, dkPP: real)
    requires dj + dk != 0.0
    ensures (dj + dk) * (dj + dk) != 0.0 && (dj + dk) * (dj + dk) * (dj + dk) != 0.0
    ensures - 2.0 * (djP * djP - dkP * dkP) / ((dj + dk) * (dj + dk))
            + (dj - dk) * (2.0 * (djP - dkP) * (djP - dkP) / ((dj + dk) * (dj + dk) * (dj + dk))
                           - (djPP + dkPP) / ((dj + dk) * (dj + dk)))
         == - (2.0 * (djP - dkP) * (djP + dkP) + (dj - dk) * (djPP + dkPP)) / ((dj + dk) * (dj + dk))
            + 2.0 * (dj - dk) * (djP + dkP) * (djP + dkP) / ((dj + dk) * (dj + dk) * (dj + dk))
            - 8.0 * (dj - dk) * djP * dkP / ((dj + dk) * (dj + dk) * (dj + dk))
  {
    SumPowersNonZero(dj, dk);
    var s2, s3 := (dj + dk) * (dj + dk), (dj + dk) * (dj + dk) * (dj + dk);
    var x1, x2, x3 := 2.0 * (djP * djP - dkP * dkP), 2.0 * (djP - dkP) * (djP - dkP), djPP + dkPP;
    var x4 := 2.0 * (djP - dkP) * (djP + dkP) + (dj - dk) * (djPP + dkPP);
    var x5, x6 := 2.0 * (dj - dk) * (djP + dkP) * (djP + dkP), 8.0 * (dj - dk) * djP * dkP;
    DivisionByReciprocal(x1, s2);
    DivisionByReciprocal(x2, s3);
    DivisionByReciprocal(x3, s2);
    DivisionByReciprocal(x4, s2);
    DivisionByReciprocal(x5, s3);
    DivisionByReciprocal(x6, s3);
    SecondDerivPolynomial(dj, dk, djP, dkP, djPP, dkPP, 1.0 / s2, 1.0 / s3, x1, x2, x3, x4, x5, x6,
      x1 / s2, x2 / s3, x3 / s2, x4 / s2, x5 / s3, x6 / s3);
  }

  /**
   * secondDerivLVQ is the quotient-rule second derivative of (dj - dk) / (dj + dk)
   * less 8 (dj - dk) djP dkP / (dj + dk)^3: its third term squares djP - dkP where
   * the quotient rule squares djP + dkP, the derivative of the denominator.
   */
  lemma SecondDerivVersusQuotientRule(dj: real, dk: real, djP: real, dkP: real, djPP: real, dkPP: real)
    requires dj + dk != 0.0
    ensures SecondDerivLVQ(dj, dk, djP, dkP, djPP, dkPP)
         == QuotientSecondDeriv(dj - dk, dj + dk, djP - dkP, djP + dkP, djPP - dkPP, djPP + dkPP)
            - 8.0 * (dj - dk) * djP * dkP / ((dj + dk) * (dj + dk) * (dj + dk))
  {
    SecondDerivAlgebra(dj, dk, djP, dkP, djPP, dkPP);
  }

  /** The per-dimension quantities of one example: offsets of both prototypes and the weight. */
  datatype Column = Column(diffJ: real, diffK: real, w: real)

  function ColumnOf(cf: CostFunction, v: ParamValue, i: int, d: int): Column
    requires ExampleAdmissible(cf, v, i) && 0 <= d < Dims(v)
  {
    var n := NearestOf(cf, v, i);
    var x := cf.ds.data[i];
    Column(v.prototypes[n.j][d] - x[d], v.prototypes[n.k][d] - x[d], v.weights[d])
  }

  /**
   * What deriv adds in step t of a dimension: t = 0 to prototype j, t = 1 to
   * prototype k, t = 2 to the weight.
   */
  function DerivInc(n: Nearest, c: Column, t: int): real
    requires n.dj + n.dk != 0.0
  {
    var dSum := n.dj + n.dk;
    var tmp := 2.0 / (dSum * dSum);
    var tmpJ := tmp * n.dk;
    var tmpK := -tmp * n.dj;
    if t == 0 then tmpJ * c.diffJ * c.w
    else if t == 1 then tmpK * c.diffK * c.w
    else tmpJ * c.diffJ * c.diffJ - tmpK * c.diffK * c.diffK
  }

  /** The value firstDerivLVQ gives in step t, against which deriv checks its increment. */
  function DerivReference(n: Nearest, c: Column, t: int): real
    requires n.dj + n.dk != 0.0
  {
    if t == 0 then FirstDerivLVQ(n.dj, n.dk, 2.0 * c.w * c.diffJ, 0.0)
    else if t == 1 then FirstDerivLVQ(n.dj, n.dk, 0.0, 2.0 * c.w * c.diffK)
    else FirstDerivLVQ(n.dj, n.dk, c.diffJ * c.diffJ, c.diffK * c.diffK)
  }

  /** The check of step t throws. */
  predicate CheckFails(n: Nearest, c: Column, t: int)
    requires n.dj + n.dk != 0.0
  {
    Abs(DerivReference(n, c, t) - DerivInc(n, c, t)) > Tolerance
  }

  /** By how much the weight increment of deriv exceeds firstDerivLVQ. */
  function WeightGap(n: Nearest, c: Column): real
    requires n.dj + n.dk != 0.0
  {
    var dSum := n.dj + n.dk;
    4.0 * n.dj * (c.diffK * c.diffK) / (dSum * dSum)
  }

  /** The prototype increments are half of what firstDerivLVQ gives, so their check throws once they exceed 1e-4. */
  lemma PrototypeCheckGap(n: Nearest, c: Column, t: int)
    requires n.dj + n.dk != 0.0 && (t == 0 || t == 1)
    ensures DerivReference(n, c, t) == 2.0 * DerivInc(n, c, t)
    ensures CheckFails(n, c, t) <==> Abs(DerivInc(n, c, t)) > Tolerance
  {
    if t == 0 {
      PrototypeGapAlgebra(n.dj + n.dk, n.dj, n.dk, c.diffJ, c.w);
    } else {
      PrototypeGapAlgebra(n.dj + n.dk, n.dj, n.dk, c.diffK, c.w);
    }
  }

  lemma PrototypeGapAlgebra(s: real, dj: real, dk: real, x: real, w: real)
    requires s != 0.0
    ensures 2.0 * (dk * (2.0 * w * x) - dj * 0.0) / (s * s) == 2.0 * ((2.0 / (s * s) * dk) * x * w)
    ensures 2.0 * (dk * 0.0 - dj * (2.0 * w * x)) / (s * s) == 2.0 * ((-(2.0 / (s * s)) * dj) * x * w)
  {
    var r := 1.0 / (s * s);
    assert 2.0 / (s * s) == 2.0 * r;
    assert 2.0 * (dk * (2.0 * w * x) - dj * 0.0) / (s * s) == 2.0 * (dk * (2.0 * w * x)) * r;
    assert 2.0 * (dk * 0.0 - dj * (2.0 * w * x)) / (s * s) == 2.0 * (-dj * (2.0 * w * x)) * r;
  }

  lemma WeightGapAlgebra(s: real, dj: real, dk: real, x: real, y: real)
    requires s != 0.0
    ensures (2.0 / (s * s) * dk) * x * x - (-(2.0 / (s * s)) * dj) * y * y - 2.0 * (dk * (x * x) - dj * (y * y)) / (s * s)
         == 4.0 * dj * (y * y) / (s * s)
  {
    var r := 1.0 / (s * s);
    assert 2.0 / (s * s) == 2.0 * r;
    assert 2.0 * (dk * (x * x) - dj * (y * y)) / (s * s) == 2.0 * (dk * (x * x) - dj * (y * y)) * r;
    assert 4.0 * dj * (y * y) / (s * s) == 4.0 * dj * (y * y) * r;
  }

  /** The weight increment exceeds firstDerivLVQ by 4 dj diffK^2 / (dj + dk)^2. */
  lemma WeightCheckGap(n: Nearest, c: Column)
    requires n.dj + n.dk != 0.0
    ensures DerivInc(n, c, 2) - DerivReference(n, c, 2) == WeightGap(n, c)
    ensures CheckFails(n, c, 2) <==> Abs(WeightGap(n, c)) > Tolerance
  {
    WeightGapAlgebra(n.dj + n.dk, n.dj, n.dk, c.diffJ, c.diffK);
  }

  // ---------------------------------------------------------------------------
  // deriv(params, i, out): order of the updates and checks
  // ---------------------------------------------------------------------------

  /**
   * deriv updates and then checks in steps s = 3 * d + t over the dimensions d,
   * with t as in DerivInc. Step s fails when its check throws.
   */
  predicate StepFails(cf: CostFunction, v: ParamValue, i: int, s: int)
    requires ExampleAdmissible(cf, v, i) && 0 <= s < 3 * Dims(v)
  {
    CheckFails(NearestOf(cf, v, i), ColumnOf(cf, v, i, s / 3), s % 3)
  }

  /** The first failing step at or after s, if any. */
  function FirstFailure(cf: CostFunction, v: ParamValue, i: int, s: nat): Option<nat>
    requires ExampleAdmissible(cf, v, i) && s <= 3 * Dims(v)
    decreases 3 * Dims(v) - s
  {
    if s == 3 * Dims(v) then None
    else if StepFails(cf, v, i, s) then Some(s)
    else FirstFailure(cf, v, i, s + 1)
  }

  /** FirstFailure finds the earliest failing step, and finds none only when every step passes. */
  lemma {:induction false} FirstFailureIsFirst(cf: CostFunction, v: ParamValue, i: int, s: nat)
    requires ExampleAdmissible(cf, v, i) && s <= 3 * Dims(v)
    ensures var r := FirstFailure(cf, v, i, s);
      && (r.Some? ==> s <= r.value < 3 * Dims(v) && StepFails(cf, v, i, r.value))
      && (r.Some? ==> forall u :: s <= u < r.value ==> !StepFails(cf, v, i, u))
      && (r.None? <==> forall u :: s <= u < 3 * Dims(v) ==> !StepFails(cf, v, i, u))
    decreases 3 * Dims(v) - s
  {
    if s < 3 * Dims(v) && !StepFails(cf, v, i, s) {
      FirstFailureIsFirst(cf, v, i, s + 1);
    }
  }

  /** deriv(params, i, out) returns normally: no self-check throws. */
  predicate ExamplePasses(cf: CostFunction, v: ParamValue, i: int)
    requires ExampleAdmissible(cf, v, i)
  {
    FirstFailure(cf, v, i, 0).None?
  }

  /** How many steps deriv carries out: all of them, or up to and including the first failing one. */
  function StepsTaken(cf: CostFunction, v: ParamValue, i: int): nat
    requires ExampleAdmissible(cf, v, i)
  {
    match FirstFailure(cf, v, i, 0)
    case None => 3 * Dims(v)
    case Some(f) => f + 1
  }

  /** The checks of dimension d: neither prototype increment nor the weight gap exceeds 1e-4. */
  predicate ColumnWithinTolerance(cf: CostFunction, v: ParamValue, i: int, d: int)
    requires ExampleAdmissible(cf, v, i) && 0 <= d < Dims(v)
  {
    var n, c := NearestOf(cf, v, i), ColumnOf(cf, v, i, d);
    Abs(DerivInc(n, c, 0)) <= Tolerance && Abs(DerivInc(n, c, 1)) <= Tolerance && Abs(WeightGap(n, c)) <= Tolerance
  }

  /** The three checks of dimension d pass exactly when it is within tolerance. */
  lemma ColumnChecks(cf: CostFunction, v: ParamValue, i: int, d: int)
    requires ExampleAdmissible(cf, v, i) && 0 <= d < Dims(v)
    ensures (!StepFails(cf, v, i, 3 * d) && !StepFails(cf, v, i, 3 * d + 1) && !StepFails(cf, v, i, 3 * d + 2))
      <==> ColumnWithinTolerance(cf, v, i, d)
  {
    var n, c := NearestOf(cf, v, i), ColumnOf(cf, v, i, d);
    PrototypeCheckGap(n, c, 0);
    PrototypeCheckGap(n, c, 1);
    WeightCheckGap(n, c);
    assert (3 * d) / 3 == d && (3 * d + 1) / 3 == d && (3 * d + 2) / 3 == d;
  }

  /**
   * deriv(params, i, out) returns normally exactly when, in every dimension,
   * both prototype increments and the weight gap are at most 1e-4 in size.
   */
  lemma ExamplePassesIff(cf: CostFunction, v: ParamValue, i: int)
    requires ExampleAdmissible(cf, v, i)
    ensures ExamplePasses(cf, v, i) <==> forall d :: 0 <= d < Dims(v) ==> ColumnWithinTolerance(cf, v, i, d)
  {
    FirstFailureIsFirst(cf, v, i, 0);
    match FirstFailure(cf, v, i, 0)
    case None =>
      forall d | 0 <= d < Dims(v)
        ensures ColumnWithinTolerance(cf, v, i, d)
      {
        ColumnChecks(cf, v, i, d);
      }
    case Some(f) =>
      var d := f / 3;
      ColumnChecks(cf, v, i, d);
      assert f == 3 * d + f % 3;
  }

  // ---------------------------------------------------------------------------
  // Contributions of one example
  // ---------------------------------------------------------------------------

  /** What deriv adds to prototype entry (r, d) when it carries out the steps stepJ and stepK of column d. */
  function ProtoInc(cf: CostFunction, v: ParamValue, i: int, r: int, d: int, stepJ: bool, stepK: bool): real
    requires ExampleAdmissible(cf, v, i) && 0 <= d < Dims(v)
  {
    var n := NearestOf(cf, v, i);
    var c := ColumnOf(cf, v, i, d);
    (if r == n.j && stepJ then DerivInc(n, c, 0) else 0.0)
      + (if r == n.k && stepK then DerivInc(n, c, 1) else 0.0)
  }

  /** What the first `steps` steps of deriv add to prototype entry (r, d). */
  function ProtoAfter(cf: CostFunction, v: ParamValue, i: int, r: int, d: int, steps: int): real
    requires ExampleAdmissible(cf, v, i) && 0 <= d < Dims(v)
  {
    ProtoInc(cf, v, i, r, d, 3 * d < steps, 3 * d + 1 < steps)
  }

  /** What the first `steps` steps of deriv add to weight d. */
  function WeightAfter(cf: CostFunction, v: ParamValue, i: int, d: int, steps: int): real
    requires ExampleAdmissible(cf, v, i) && 0 <= d < Dims(v)
  {
    if 3 * d + 2 < steps then DerivInc(NearestOf(cf, v, i), ColumnOf(cf, v, i, d), 2) else 0.0
  }

  /** What deriv adds to prototype entry (r, d), counting only the steps it reaches. */
  function PartialProto(cf: CostFunction, v: ParamValue, i: int, r: int, d: int): real
    requires ExampleAdmissible(cf, v, i) && 0 <= d < Dims(v)
  {
    ProtoAfter(cf, v, i, r, d, StepsTaken(cf, v, i))
  }

  /** What deriv adds to weight d, counting only the steps it reaches. */
  function PartialWeight(cf: CostFunction, v: ParamValue, i: int, d: int): real
    requires ExampleAdmissible(cf, v, i) && 0 <= d < Dims(v)
  {
    WeightAfter(cf, v, i, d, StepsTaken(cf, v, i))
  }

  /** The contribution of example i to the gradient entry (r, d) of the prototypes. */
  function ProtoContribution(cf: CostFunction, v: ParamValue, i: int, r: int, d: int): real
    requires ExampleAdmissible(cf, v, i) && 0 <= d < Dims(v)
  {
    ProtoInc(cf, v, i, r, d, true, true)
  }

  /** The contribution of example i to the gradient entry d of the weights. */
  function WeightContribution(cf: CostFunction, v: ParamValue, i: int, d: int): real
    requires ExampleAdmissible(cf, v, i) && 0 <= d < Dims(v)
  {
    DerivInc(NearestOf(cf, v, i), ColumnOf(cf, v, i, d), 2)
  }

  /** An example whose checks all pass contributes in full. */
  lemma PassingExampleContributes(cf: CostFunction, v: ParamValue, i: int, r: int, d: int)
    requires ExampleAdmissible(cf, v, i) && 0 <= d < Dims(v) && ExamplePasses(cf, v, i)
    ensures PartialProto(cf, v, i, r, d) == ProtoContribution(cf, v, i, r, d)
    ensures PartialWeight(cf, v, i, d) == WeightContribution(cf, v, i, d)
  {
  }

  /** The increments hessDiag makes in step t of a dimension (t as in DerivInc). */
  function HesseInc(n: Nearest, c: Column, t: int): real
    requires n.dj + n.dk != 0.0
  {
    var dSum := n.dj + n.dk;
    var tmp := 4.0 / (dSum * dSum * dSum);
    var tmpJ, tmpJ' := tmp * n.dk * dSum, tmp * n.dk * -2.0;
    var tmpK, tmpK' := -tmp * n.dj * dSum, tmp * n.dj * 2.0;
    var djP, dkP := c.diffJ * c.diffJ, c.diffK * c.diffK;
    if t == 0 then c.w * (tmpJ + tmpJ' * c.diffJ)
    else if t == 1 then c.w * (tmpK + tmpK' * c.diffK)
    else tmp / 2.0 * ((djP - dkP) * (djP - dkP) * (n.dj - n.dk) - (n.dj + n.dk) * (djP * djP - dkP * dkP))
  }

  lemma HesseWeightAlgebra(s: real, e: real, a: real, b: real)
    requires s != 0.0
    ensures (4.0 / (s * s * s)) / 2.0 * (b * e - s * a)
         == 0.0 / s - 2.0 * a / (s * s) + e * (2.0 * b / (s * s * s) - 0.0 / (s * s))
  {
    var r := 1.0 / s;
    assert s * r == 1.0;
    assert 1.0 / (s * s) == r * r;
    assert 1.0 / (s * s * s) == r * r * r;
    assert 2.0 * a / (s * s) == 2.0 * a * (r * r);
    assert 2.0 * b / (s * s * s) == 2.0 * b * (r * r * r);
    assert (4.0 / (s * s * s)) / 2.0 == 2.0 * (r * r * r);
  }

  /**
   * The weight increment of hesseDiag equals secondDerivLVQ with djP, dkP the
   * squared offsets and zero second derivatives: its self-check never throws.
   */
  lemma HesseWeightMatchesReference(n: Nearest, c: Column)
    requires n.dj + n.dk != 0.0
    ensures HesseInc(n, c, 2)
         == SecondDerivLVQ(n.dj, n.dk, c.diffJ * c.diffJ, c.diffK * c.diffK, 0.0, 0.0)
    ensures Abs(SecondDerivLVQ(n.dj, n.dk, c.diffJ * c.diffJ, c.diffK * c.diffK, 0.0, 0.0) - HesseInc(n, c, 2)) <= Tolerance
  {
    var djP, dkP := c.diffJ * c.diffJ, c.diffK * c.diffK;
    HesseWeightAlgebra(n.dj + n.dk, n.dj - n.dk, djP * djP - dkP * dkP, (djP - dkP) * (djP - dkP));
  }

  /**
   * The weight entry of hesseDiag is not the second derivative of the loss in
   * that weight: it falls short of the quotient rule by
   * 8 (dj - dk) diffJ^2 diffK^2 / (dj + dk)^3, which vanishes only when
   * dj = dk or a prototype coincides with the example in dimension d. The
   * distances and the squared offsets djP, dkP are named by parameters.
   */
  lemma HesseWeightVersusQuotientRule(n: Nearest, c: Column, dj: real, dk: real, djP: real, dkP: real)
    requires dj == n.dj && dk == n.dk && dj + dk != 0.0
    requires djP == c.diffJ * c.diffJ && dkP == c.diffK * c.diffK
    ensures HesseInc(n, c, 2)
         == QuotientSecondDeriv(dj - dk, dj + dk, djP - dkP, djP + dkP, 0.0, 0.0)
            - 8.0 * (dj - dk) * djP * dkP / ((dj + dk) * (dj + dk) * (dj + dk))
  {
    assert HesseInc(n, c, 2) == SecondDerivLVQ(dj, dk, djP, dkP, 0.0, 0.0) by {
      HesseWeightMatchesReference(n, c);
    }
    SecondDerivVersusQuotientRule(dj, dk, djP, dkP, 0.0, 0.0);
  }

  /** What hesseDiag adds to prototype entry (r, d) for example i. */
  function HesseProto(cf: CostFunction, v: ParamValue, i: int, r: int, d: int): real
    requires ExampleAdmissible(cf, v, i) && 0 <= d < Dims(v)
  {
    var n := NearestOf(cf, v, i);
    var c := ColumnOf(cf, v, i, d);
    (if r == n.j then HesseInc(n, c, 0) else 0.0) + (if r == n.k then HesseInc(n, c, 1) else 0.0)
  }

  /** What hesseDiag adds to weight d for example i. */
  function HesseWeight(cf: CostFunction, v: ParamValue, i: int, d: int): real
    requires ExampleAdmissible(cf, v, i) && 0 <= d < Dims(v)
  {
    HesseInc(NearestOf(cf, v, i), ColumnOf(cf, v, i, d), 2)
  }

  // ---------------------------------------------------------------------------
  // Accumulation buffers and the operations that fill them
  // ---------------------------------------------------------------------------

  /** A GRLVQ parameter object used as an output buffer: prototypes by row, and weights. */
  class GRLVQOptParam {
    var prototypes: array2<real>
    var weights: array<real>

    /** The buffer has the shape of the parameters v. */
    predicate Fits(v: ParamValue)
      reads this
    {
      prototypes.Length0 == |v.prototypes| && prototypes.Length1 == Dims(v) && weights.Length == Dims(v)
    }

    /** params.zero(): a fresh buffer of the shape of v, holding zeros. */
    constructor Zero(v: ParamValue)
      ensures Fits(v) && fresh(prototypes) && fresh(weights)
      ensures forall r, d :: 0 <= r < prototypes.Length0 && 0 <= d < prototypes.Length1 ==> prototypes[r, d] == 0.0
      ensures forall d :: 0 <= d < weights.Length ==> weights[d] == 0.0
    {
      prototypes := new real[|v.prototypes|, Dims(v)]((_, _) => 0.0);
      weights := new real[Dims(v)](_ => 0.0);
    }
  }

  /** Every example of the data set is admissible. */
  predicate AllAdmissible(cf: CostFunction, v: ParamValue) {
    forall i :: 0 <= i < Size(cf) ==> ExampleAdmissible(cf, v, i)
  }

  /** The gradient of the first n examples at prototype entry (r, d). */
  function ProtoSum(cf: CostFunction, v: ParamValue, n: nat, r: int, d: int): real
    requires n <= Size(cf) && AllAdmissible(cf, v) && 0 <= d < Dims(v)
  {
    if n == 0 then 0.0 else ProtoSum(cf, v, n - 1, r, d) + ProtoContribution(cf, v, n - 1, r, d)
  }

  /** The gradient of the first n examples at weight d. */
  function WeightSum(cf: CostFunction, v: ParamValue, n: nat, d: int): real
    requires n <= Size(cf) && AllAdmissible(cf, v) && 0 <= d < Dims(v)
  {
    if n == 0 then 0.0 else WeightSum(cf, v, n - 1, d) + WeightContribution(cf, v, n - 1, d)
  }

  /**
   * A prototype that is neither the closest correct nor the closest incorrect
   * prototype of any of the first n examples has a zero gradient.
   */
  lemma {:induction false} UnusedPrototypeHasZeroGradient(cf: CostFunction, v: ParamValue, n: nat, r: int, d: int)
    requires n <= Size(cf) && AllAdmissible(cf, v) && 0 <= d < Dims(v)
    requires forall i :: 0 <= i < n ==> InDataSet(cf, i) && NearestOf(cf, v, i).j != r && NearestOf(cf, v, i).k != r
    ensures ProtoSum(cf, v, n, r, d) == 0.0
  {
    if n > 0 {
      UnusedPrototypeHasZeroGradient(cf, v, n - 1, r, d);
    }
  }

  /** FirstFailure skips steps that pass. */
  lemma {:induction false} FirstFailureWithin(cf: CostFunction, v: ParamValue, i: int, s: nat, m: nat)
    requires ExampleAdmissible(cf, v, i) && s + m <= 3 * Dims(v)
    requires forall u :: s <= u < s + m ==> !StepFails(cf, v, i, u)
    ensures FirstFailure(cf, v, i, s) == FirstFailure(cf, v, i, s + m)
    decreases m
  {
    if m > 0 {
      FirstFailureWithin(cf, v, i, s + 1, m - 1);
    }
  }

  /** When the three checks of dimension ndx pass, the first failure lies in a later dimension. */
  lemma ColumnPasses(cf: CostFunction, v: ParamValue, i: int, ndx: int)
    requires ExampleAdmissible(cf, v, i) && 0 <= ndx < Dims(v)
    requires !StepFails(cf, v, i, 3 * ndx) && !StepFails(cf, v, i, 3 * ndx + 1) && !StepFails(cf, v, i, 3 * ndx + 2)
    ensures FirstFailure(cf, v, i, 3 * ndx) == FirstFailure(cf, v, i, 3 * (ndx + 1))
  {
    FirstFailureWithin(cf, v, i, 3 * ndx, 3);
  }

  /** When check m of dimension ndx is the first of its three to fail, it is the first failure from there on. */
  lemma ColumnFails(cf: CostFunction, v: ParamValue, i: int, ndx: int, m: nat)
    requires ExampleAdmissible(cf, v, i) && 0 <= ndx < Dims(v) && m < 3
    requires forall s :: 3 * ndx <= s < 3 * ndx + m ==> !StepFails(cf, v, i, s)
    requires StepFails(cf, v, i, 3 * ndx + m)
    ensures FirstFailure(cf, v, i, 3 * ndx) == Some(3 * ndx + m)
  {
    FirstFailureWithin(cf, v, i, 3 * ndx, m);
  }

  /** The updates of dimension ndx carry the step count from the start of that dimension to 3 * ndx + taken. */
  lemma ColumnAdvances(cf: CostFunction, v: ParamValue, i: int, ndx: int, taken: nat)
    requires ExampleAdmissible(cf, v, i) && 0 <= ndx < Dims(v) && taken <= 3
    ensures forall r, d :: 0 <= d < Dims(v) ==>
      ProtoAfter(cf, v, i, r, d, 3 * ndx) + (if d == ndx then ProtoInc(cf, v, i, r, d, 0 < taken, 1 < taken) else 0.0)
         == ProtoAfter(cf, v, i, r, d, 3 * ndx + taken)
    ensures forall d :: 0 <= d < Dims(v) ==>
      WeightAfter(cf, v, i, d, 3 * ndx) + (if d == ndx && taken == 3 then WeightContribution(cf, v, i, d) else 0.0)
         == WeightAfter(cf, v, i, d, 3 * ndx + taken)
  {
  }

  /**
   * One pass of the loop of deriv(params, i, out), for dimension ndx: the
   * three updates, each followed by its check. ok is false where the Java code
   * throws; taken is the number of updates made.
   */
  method DerivColumn(cf: CostFunction, v: ParamValue, i: int, out: GRLVQOptParam, ndx: int)
    returns (ok: bool, ghost taken: nat)
    requires ExampleAdmissible(cf, v, i) && out.Fits(v) && 0 <= ndx < Dims(v)
    modifies out.prototypes, out.weights
    ensures ok <==> !StepFails(cf, v, i, 3 * ndx) && !StepFails(cf, v, i, 3 * ndx + 1) && !StepFails(cf, v, i, 3 * ndx + 2)
    ensures 1 <= taken <= 3 && (ok ==> taken == 3)
    ensures !ok ==> StepFails(cf, v, i, 3 * ndx + taken - 1)
    ensures forall s :: 3 * ndx <= s < 3 * ndx + taken - 1 ==> !StepFails(cf, v, i, s)
    ensures forall r, d :: 0 <= r < out.prototypes.Length0 && 0 <= d < out.prototypes.Length1 ==>
      out.prototypes[r, d] == old(out.prototypes[r, d]) + (if d == ndx then ProtoInc(cf, v, i, r, d, 0 < taken, 1 < taken) else 0.0)
    ensures forall d :: 0 <= d < out.weights.Length ==>
      out.weights[d] == old(out.weights[d]) + (if d == ndx && taken == 3 then WeightContribution(cf, v, i, d) else 0.0)
  {
    var n := NearestOf(cf, v, i);
    var c := ColumnOf(cf, v, i, ndx);
    var P, W := out.prototypes, out.weights;
    assert (3 * ndx) / 3 == ndx && (3 * ndx + 1) / 3 == ndx && (3 * ndx + 2) / 3 == ndx;

    var sav := DerivInc(n, c, 0);
    P[n.j, ndx] := P[n.j, ndx] + sav;
    if CheckFails(n, c, 0) {
      return false, 1;
    }

    sav := DerivInc(n, c, 1);
    P[n.k, ndx] := P[n.k, ndx] + sav;
    if CheckFails(n, c, 1) {
      return false, 2;
    }

    sav := DerivInc(n, c, 2);
    W[ndx] := W[ndx] + sav;
    ok, taken := !CheckFails(n, c, 2), 3;
  }

  /**
   * deriv(params, i, out): adds the contributions of example i to out, one
   * dimension at a time, checking each increment after making it. ok is false
   * where the Java code throws; out then holds the updates made before the throw.
   */
  method DerivInto(cf: CostFunction, v: ParamValue, i: int, out: GRLVQOptParam) returns (ok: bool)
    requires ExampleAdmissible(cf, v, i) && out.Fits(v)
    modifies out.prototypes, out.weights
    ensures ok <==> ExamplePasses(cf, v, i)
    ensures forall r, d :: 0 <= r < out.prototypes.Length0 && 0 <= d < out.prototypes.Length1 ==>
      out.prototypes[r, d] == old(out.prototypes[r, d]) + PartialProto(cf, v, i, r, d)
    ensures forall d :: 0 <= d < out.weights.Length ==>
      out.weights[d] == old(out.weights[d]) + PartialWeight(cf, v, i, d)
  {
    var P, W := out.prototypes, out.weights;
    for ndx := 0 to Dims(v)
      invariant FirstFailure(cf, v, i, 0) == FirstFailure(cf, v, i, 3 * ndx)
      invariant forall r, d :: 0 <= r < P.Length0 && 0 <= d < P.Length1 ==>
        P[r, d] == old(P[r, d]) + ProtoAfter(cf, v, i, r, d, 3 * ndx)
      invariant forall d :: 0 <= d < W.Length ==>
        W[d] == old(W[d]) + WeightAfter(cf, v, i, d, 3 * ndx)
    {
      ghost var taken;
      ok, taken := DerivColumn(cf, v, i, out, ndx);
      ColumnAdvances(cf, v, i, ndx, taken);
      if !ok {
        ColumnFails(cf, v, i, ndx, taken - 1);
        assert StepsTaken(cf, v, i) == 3 * ndx + taken;
        return;
      }
      ColumnPasses(cf, v, i, ndx);
    }
    assert StepsTaken(cf, v, i) == 3 * Dims(v);
    return true;
  }

  /** deriv(params, i): the contributions of example i, accumulated into a fresh zero buffer. */
  method DerivExample(cf: CostFunction, v: ParamValue, i: int) returns (ok: bool, out: GRLVQOptParam)
    requires ExampleAdmissible(cf, v, i)
    ensures out.Fits(v) && fresh(out.prototypes) && fresh(out.weights)
    ensures ok <==> ExamplePasses(cf, v, i)
    ensures ok ==> forall r, d :: 0 <= r < out.prototypes.Length0 && 0 <= d < out.prototypes.Length1 ==>
      out.prototypes[r, d] == ProtoContribution(cf, v, i, r, d)
    ensures ok ==> forall d :: 0 <= d < out.weights.Length ==> out.weights[d] == WeightContribution(cf, v, i, d)
  {
    out := new GRLVQOptParam.Zero(v);
    ok := DerivInto(cf, v, i, out);
    if ok {
      forall r, d | 0 <= r < out.prototypes.Length0 && 0 <= d < out.prototypes.Length1
        ensures out.prototypes[r, d] == ProtoContribution(cf, v, i, r, d)
      {
        PassingExampleContributes(cf, v, i, r, d);
      }
      forall d | 0 <= d < out.weights.Length
        ensures out.weights[d] == WeightContribution(cf, v, i, d)
      {
        PassingExampleContributes(cf, v, i, 0, d);
      }
    }
  }

  /**
   * deriv(params): the gradient over the whole data set, accumulated example by
   * example into one fresh zero buffer. ok is false where the Java code throws,
   * which it does as soon as one example fails its checks.
   */
  method Deriv(cf: CostFunction, v: ParamValue) returns (ok: bool, out: GRLVQOptParam)
    requires AllAdmissible(cf, v)
    ensures out.Fits(v) && fresh(out.prototypes) && fresh(out.weights)
    ensures ok <==> forall i :: 0 <= i < Size(cf) ==> ExamplePasses(cf, v, i)
    ensures ok ==> forall r, d :: 0 <= r < out.prototypes.Length0 && 0 <= d < out.prototypes.Length1 ==>
      out.prototypes[r, d] == ProtoSum(cf, v, Size(cf), r, d)
    ensures ok ==> forall d :: 0 <= d < out.weights.Length ==> out.weights[d] == WeightSum(cf, v, Size(cf), d)
  {
    out := new GRLVQOptParam.Zero(v);
    var P, W := out.prototypes, out.weights;
    var size := Size(cf);
    for i := 0 to size
      invariant out.prototypes == P && out.weights == W && out.Fits(v) && fresh(P) && fresh(W)
      invariant forall e :: 0 <= e < i ==> ExamplePasses(cf, v, e)
      invariant forall r, d :: 0 <= r < P.Length0 && 0 <= d < P.Length1 ==> P[r, d] == ProtoSum(cf, v, i, r, d)
      invariant forall d :: 0 <= d < W.Length ==> W[d] == WeightSum(cf, v, i, d)
    {
      ok := DerivInto(cf, v, i, out);
      if !ok {
        return;
      }
      forall r, d | 0 <= r < P.Length0 && 0 <= d < P.Length1
        ensures P[r, d] == ProtoSum(cf, v, i + 1, r, d)
      {
        PassingExampleContributes(cf, v, i, r, d);
      }
      forall d | 0 <= d < W.Length
        ensures W[d] == WeightSum(cf, v, i + 1, d)
      {
        PassingExampleContributes(cf, v, i, 0, d);
      }
    }
    ok := true;
  }

  // ---------------------------------------------------------------------------
  // hesseDiag
  // ---------------------------------------------------------------------------

  /**
   * One pass of the loop of hesseDiag(params, i, out), for dimension ndx. Its
   * check compares the weight increment with secondDerivLVQ; by
   * HesseWeightMatchesReference it never throws.
   */
  method HesseColumn(cf: CostFunction, v: ParamValue, i: int, out: GRLVQOptParam, ndx: int)
    requires ExampleAdmissible(cf, v, i) && out.Fits(v) && 0 <= ndx < Dims(v)
    modifies out.prototypes, out.weights
    ensures forall r, d :: 0 <= r < out.prototypes.Length0 && 0 <= d < out.prototypes.Length1 ==>
      out.prototypes[r, d] == old(out.prototypes[r, d]) + (if d == ndx then HesseProto(cf, v, i, r, d) else 0.0)
    ensures forall d :: 0 <= d < out.weights.Length ==>
      out.weights[d] == old(out.weights[d]) + (if d == ndx then HesseWeight(cf, v, i, d) else 0.0)
  {
    var n := NearestOf(cf, v, i);
    var c := ColumnOf(cf, v, i, ndx);
    var P, W := out.prototypes, out.weights;
    P[n.j, ndx] := P[n.j, ndx] + HesseInc(n, c, 0);
    P[n.k, ndx] := P[n.k, ndx] + HesseInc(n, c, 1);
    var djP, dkP := c.diffJ * c.diffJ, c.diffK * c.diffK;
    var sav := HesseInc(n, c, 2);
    W[ndx] := W[ndx] + sav;
    HesseWeightMatchesReference(n, c);
    if Abs(SecondDerivLVQ(n.dj, n.dk, djP, dkP, 0.0, 0.0) - sav) > Tolerance {
      assert false;
    }
  }

  /** hesseDiag(params, i, out): adds the diagonal second derivatives of example i to out. */
  method HesseInto(cf: CostFunction, v: ParamValue, i: int, out: GRLVQOptParam)
    requires ExampleAdmissible(cf, v, i) && out.Fits(v)
    modifies out.prototypes, out.weights
    ensures forall r, d :: 0 <= r < out.prototypes.Length0 && 0 <= d < out.prototypes.Length1 ==>
      out.prototypes[r, d] == old(out.prototypes[r, d]) + HesseProto(cf, v, i, r, d)
    ensures forall d :: 0 <= d < out.weights.Length ==> out.weights[d] == old(out.weights[d]) + HesseWeight(cf, v, i, d)
  {
    var P, W := out.prototypes, out.weights;
    for ndx := 0 to Dims(v)
      invariant forall r, d :: 0 <= r < P.Length0 && 0 <= d < P.Length1 ==>
        P[r, d] == old(P[r, d]) + (if d < ndx then HesseProto(cf, v, i, r, d) else 0.0)
      invariant forall d :: 0 <= d < W.Length ==> W[d] == old(W[d]) + (if d < ndx then HesseWeight(cf, v, i, d) else 0.0)
    {
      HesseColumn(cf, v, i, out, ndx);
    }
  }

  /** hesseDiag(params, i): the diagonal second derivatives of example i in a fresh zero buffer. */
  method HesseExample(cf: CostFunction, v: ParamValue, i: int) returns (out: GRLVQOptParam)
    requires ExampleAdmissible(cf, v, i)
    ensures out.Fits(v) && fresh(out.prototypes) && fresh(out.weights)
    ensures forall r, d :: 0 <= r < out.prototypes.Length0 && 0 <= d < out.prototypes.Length1 ==>
      out.prototypes[r, d] == HesseProto(cf, v, i, r, d)
    ensures forall d :: 0 <= d < out.weights.Length ==> out.weights[d] == HesseWeight(cf, v, i, d)
  {
    out := new GRLVQOptParam.Zero(v);
    HesseInto(cf, v, i, out);
  }

  /** The diagonal second derivative of the first n examples at prototype entry (r, d). */
  function HesseProtoSum(cf: CostFunction, v: ParamValue, n: nat, r: int, d: int): real
    requires n <= Size(cf) && AllAdmissible(cf, v) && 0 <= d < Dims(v)
  {
    if n == 0 then 0.0 else HesseProtoSum(cf, v, n - 1, r, d) + HesseProto(cf, v, n - 1, r, d)
  }

  /** The diagonal second derivative of the first n examples at weight d. */
  function HesseWeightSum(cf: CostFunction, v: ParamValue, n: nat, d: int): real
    requires n <= Size(cf) && AllAdmissible(cf, v) && 0 <= d < Dims(v)
  {
    if n == 0 then 0.0 else HesseWeightSum(cf, v, n - 1, d) + HesseWeight(cf, v, n - 1, d)
  }

  /** hesseDiag(params): the diagonal second derivatives summed over the data set. */
  method HesseDiag(cf: CostFunction, v: ParamValue) returns (out: GRLVQOptParam)
    requires AllAdmissible(cf, v)
    ensures out.Fits(v) && fresh(out.prototypes) && fresh(out.weights)
    ensures forall r, d :: 0 <= r < out.prototypes.Length0 && 0 <= d < out.prototypes.Length1 ==>
      out.prototypes[r, d] == HesseProtoSum(cf, v, Size(cf), r, d)
    ensures forall d :: 0 <= d < out.weights.Length ==> out.weights[d] == HesseWeightSum(cf, v, Size(cf), d)
  {
    out := new GRLVQOptParam.Zero(v);
    var P, W := out.prototypes, out.weights;
    var size := Size(cf);
    for i := 0 to size
      invariant out.prototypes == P && out.weights == W && out.Fits(v) && fresh(P) && fresh(W)
      invariant forall r, d :: 0 <= r < P.Length0 && 0 <= d < P.Length1 ==> P[r, d] == HesseProtoSum(cf, v, i, r, d)
      invariant forall d :: 0 <= d < W.Length ==> W[d] == HesseWeightSum(cf, v, i, d)
    {
      HesseInto(cf, v, i, out);
    }
  }
}
