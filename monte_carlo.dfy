/** The Monte-Carlo estimator of pi that every variant of the program shares.

    A sample is a point drawn uniformly from the unit square; it is a hit when it
    lies strictly inside the quarter of the unit circle, and after m samples the
    estimate is 4 * hits / m. The pseudo-random generator is replaced by the
    sequence of draws it would produce: sample k (counting from 0) consumes the
    pair `draws[k]`, the two numbers `np.random.rand(2)` returns, or the two
    successive calls `np.random.rand()`. Floating point is replaced by `real`. */
module MonteCarlo {

  /** The two draws one sample consumes: its x and its y. */
  type Sample = (real, real)

  datatype Option<T> = None | Some(value: T)

  /** The exceptions the Python functions raise on arguments they cannot handle. */
  datatype PyError =
    | ZeroDivisionError        // `//`, `%` or `/` by zero
    | NegativeDimensionsError  // `np.zeros` asked for a negative length (a ValueError)

  /** A call either returns a value or raises one of the exceptions above. */
  datatype Result<T> = Success(value: T) | Failure(error: PyError)

  /** The number of iterations of `range(1, n + 1)`, which is also that of `range(n)`. */
  function Iterations(n: int): (k: nat)
    ensures n >= 0 ==> k == n
    ensures n < 0 ==> k == 0
  {
    if n < 0 then 0 else n
  }

  /** The sum-of-squares test `x**2 + y**2 < 1`, with a strict comparison. */
  predicate Inside(s: Sample) {
    s.0 * s.0 + s.1 * s.1 < 1.0
  }

  /** `r` is the Euclidean norm of the sample: non-negative, and its square is x² + y². */
  predicate IsNormOf(r: real, s: Sample) {
    r >= 0.0 && r * r == s.0 * s.0 + s.1 * s.1
  }

  /** `norm`, which stands for `np.linalg.norm`, is exact on every supplied draw. */
  predicate IsNormOn(norm: Sample -> real, draws: seq<Sample>) {
    forall k :: 0 <= k < |draws| ==> IsNormOf(norm(draws[k]), draws[k])
  }

  /** The norm test `norm < 1` and the sum-of-squares test classify every point
      alike: for a non-negative r with r² = x² + y², r < 1 exactly when x² + y² < 1. */
  lemma NormTestAgrees(r: real, s: Sample)
    requires IsNormOf(r, s)
    ensures r < 1.0 <==> Inside(s)
  {
    var sq := s.0 * s.0 + s.1 * s.1;
    if r < 1.0 {
      assert r * r <= r * 1.0;
      assert sq < 1.0;
    } else {
      assert r * r >= r * 1.0;
      assert sq >= 1.0;
    }
  }

  /** The norm test `norm(x, y) < 1` as a test on samples. */
  function NormTest(norm: Sample -> real): Sample -> bool
  {
    s => norm(s) < 1.0
  }

  /** `test` classifies every supplied draw as the sum-of-squares test does. */
  predicate Classifies(test: Sample -> bool, draws: seq<Sample>) {
    forall k :: 0 <= k < |draws| ==> test(draws[k]) == Inside(draws[k])
  }

  /** On draws where `norm` is exact, the norm test classifies every draw as the
      sum-of-squares test does. */
  lemma NormClassifies(norm: Sample -> real, draws: seq<Sample>)
    requires IsNormOn(norm, draws)
    ensures Classifies(NormTest(norm), draws)
  {
    forall k | 0 <= k < |draws|
      ensures NormTest(norm)(draws[k]) == Inside(draws[k])
    {
      NormTestAgrees(norm(draws[k]), draws[k]);
    }
  }

  /** Hit or miss for each of the first m samples, in drawing order. */
  function Classify(draws: seq<Sample>, m: nat): seq<bool>
    requires m <= |draws|
  {
    seq(m, k requires 0 <= k < m => Inside(draws[k]))
  }

  lemma ClassifyPrefix(draws: seq<Sample>, m: nat, j: nat)
    requires j <= m <= |draws|
    ensures Classify(draws, m)[..j] == Classify(draws, j)
  {
  }

  /** The number of hits, counted over the samples in order. */
  function CountHits(hits: seq<bool>): (c: nat)
    ensures c <= |hits|
  {
    if hits == [] then 0
    else CountHits(hits[..|hits| - 1]) + (if hits[|hits| - 1] then 1 else 0)
  }

  /** The running count never decreases, and grows by at most one per sample:
      between sample i and sample j it grows by at most j - i. */
  lemma {:induction false} CountGrowth(hits: seq<bool>, i: nat, j: nat)
    requires i <= j <= |hits|
    ensures CountHits(hits[..i]) <= CountHits(hits[..j]) <= CountHits(hits[..i]) + (j - i)
    decreases j - i
  {
    if i < j {
      CountGrowth(hits, i, j - 1);
      assert hits[..j][..j - 1] == hits[..j - 1];
    }
  }

  /** `4*num_in_circle/n`, Python's true division of the count by the sample count. */
  function Estimate(count: int, n: int): real
    requires n != 0
  {
    4.0 * count as real / n as real
  }

  /** An estimate from at most n hits out of n samples lies in [0, 4]. */
  lemma EstimateInRange(count: int, n: int)
    requires 0 <= count <= n && n >= 1
    ensures 0.0 <= Estimate(count, n) <= 4.0
  {
    var e := Estimate(count, n);
    assert e * n as real == 4.0 * count as real;
    assert 4.0 * count as real <= 4.0 * n as real;
  }

  /** What the plain count-then-divide functions return after the samples whose
      hit-or-miss is `hits`: a division by `n` that raises when `n` is zero. When
      `n` is negative no sample is drawn and the result is 0. */
  function Outcome(hits: seq<bool>, n: int): (r: Result<real>)
    requires |hits| == Iterations(n)
    ensures r.Failure? <==> n == 0
    ensures r.Failure? ==> r.error == ZeroDivisionError
    ensures r.Success? ==> r.value * n as real == 4.0 * CountHits(hits) as real
    ensures r.Success? ==> 0.0 <= r.value <= 4.0
  {
    if n == 0 then Failure(ZeroDivisionError)
    else
      EstimateInRangeOrZero(CountHits(hits), n);
      Success(Estimate(CountHits(hits), n))
  }

  lemma EstimateInRangeOrZero(count: nat, n: int)
    requires n != 0 && count <= Iterations(n)
    ensures 0.0 <= Estimate(count, n) <= 4.0
  {
    if n > 0 {
      EstimateInRange(count, n);
    }
  }

  /** The counting loop shared by the norm-test functions: for each of the first m
      samples in order, add one when `norm(x, y) < 1`. */
  method CountInsideByNorm(draws: seq<Sample>, m: nat, norm: Sample -> real) returns (numInCircle: nat)
    requires m <= |draws|
    requires IsNormOn(norm, draws)
    ensures numInCircle == CountHits(Classify(draws, m))
    ensures numInCircle <= m
  {
    numInCircle := 0;
    var i := 0;
    while i < m
      invariant 0 <= i <= m
      invariant numInCircle == CountHits(Classify(draws, i))
    {
      assert (norm(draws[i]) < 1.0) == Inside(draws[i]) by {
        NormTestAgrees(norm(draws[i]), draws[i]);
      }
      if norm(draws[i]) < 1.0 {
        numInCircle := numInCircle + 1;
      }
      assert Classify(draws, i + 1)[..i] == Classify(draws, i);
      i := i + 1;
    }
  }
}
