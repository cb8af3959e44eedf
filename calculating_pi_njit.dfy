/** calculating_pi_njit.py: the plain estimators without checkpoints,
    `calc_pi_serial` with the norm test and the JIT-compiled `calc_pi` with the
    sum-of-squares test. Both count hits over `num_samples` samples and divide once. */
module CalculatingPiNjit {
  import opened MonteCarlo

  /** `calc_pi_serial`: the count of samples whose norm is below 1, times 4, over
      `num_samples`. The result lies in [0, 4], raises for zero samples, and depends
      on the draws only. */
  method CalcPiSerial(numSamples: int, draws: seq<Sample>, norm: Sample -> real) returns (r: Result<real>)
    requires Iterations(numSamples) <= |draws|
    requires IsNormOn(norm, draws)
    ensures r == Outcome(Classify(draws, Iterations(numSamples)), numSamples)
    ensures r.Success? ==> 0.0 <= r.value <= 4.0
  {
    var numInCircle := CountInsideByNorm(draws, Iterations(numSamples), norm);
    if numSamples == 0 {
      return Failure(ZeroDivisionError);
    }
    r := Success(4.0 * numInCircle as real / numSamples as real);
  }

  /** `calc_pi`: the same estimate with the test `x**2 + y**2 < 1`, drawing x and
      then y. Its contract is that of `CalcPiSerial`: on the same draws both return
      the same value. */
  method CalcPi(numSamples: int, draws: seq<Sample>) returns (r: Result<real>)
    requires Iterations(numSamples) <= |draws|
    ensures r == Outcome(Classify(draws, Iterations(numSamples)), numSamples)
    ensures r.Success? ==> 0.0 <= r.value <= 4.0
  {
    var numInCircle := 0;
    var i := 1;
    while i <= numSamples
      invariant 1 <= i <= Iterations(numSamples) + 1
      invariant numInCircle == CountHits(Classify(draws, i - 1))
    {
      // x = np.random.rand(); y = np.random.rand(); if (x**2 + y**2) < 1
      if Inside(draws[i - 1]) {
        numInCircle := numInCircle + 1;
      }
      ClassifyPrefix(draws, i, i - 1);
      i := i + 1;
    }
    if numSamples == 0 {
      return Failure(ZeroDivisionError);
    }
    r := Success(4.0 * numInCircle as real / numSamples as real);
  }
}
