/** calculating_pi.py: the two checkpointing estimators `calc_pi_serial` (norm test)
    and `calc_pi` (sum-of-squares test), which fill the preallocated buffer
    `pi_values` with the running estimate every `pi_collection_rate` samples, and
    the arithmetic of `display_difference`. */
module CalculatingPi {
  import opened MonteCarlo

  /** What both functions return: the final estimate and the checkpoint buffer. */
  datatype Run = Run(pi: real, piValues: array<real>)

  /** Python's floor division `a // b`; Dafny's `/` is Euclidean, which agrees with
      it only for a positive divisor. */
  function FloorDiv(a: int, b: int): int
    requires b != 0
  {
    if b > 0 then a / b else (-a) / (-b)
  }

  /** `FloorDiv(a, b)` is the floor of a / b: q·b ≤ a < q·b + b for a positive
      divisor, and the mirror image for a negative one. */
  lemma FloorDivIsFloor(a: int, b: int)
    requires b != 0
    ensures var q := FloorDiv(a, b);
            && (b > 0 ==> q * b <= a < q * b + b)
            && (b < 0 ==> q * b + b < a <= q * b)
  {
  }

  /** The exception a call raises, decided by its two counts alone:
      `np.zeros(int(num_samples // pi_collection_rate))` raises first, then the
      final `4*num_in_circle/num_samples`. */
  function Rejection(numSamples: int, rate: int): Option<PyError>
  {
    if rate == 0 then Some(ZeroDivisionError)
    else if FloorDiv(numSamples, rate) < 0 then Some(NegativeDimensionsError)
    else if numSamples == 0 then Some(ZeroDivisionError)
    else None
  }

  /** A call returns exactly when both counts are positive, or both negative;
      in the second case no sample is drawn. */
  lemma AcceptedArguments(numSamples: int, rate: int)
    ensures Rejection(numSamples, rate) == None <==>
            (numSamples >= 1 && rate >= 1) || (numSamples <= -1 && rate <= -1)
  {
    if rate != 0 {
      var q := FloorDiv(numSamples, rate);
      FloorDivIsFloor(numSamples, rate);
      MulSign(q, rate);
      MulSign(q + 1, rate);
      assert (q + 1) * rate == q * rate + rate;
    }
  }

  lemma MulSign(x: int, y: int)
    ensures x > 0 && y > 0 ==> x * y > 0
    ensures x < 0 && y > 0 ==> x * y < 0
    ensures x > 0 && y < 0 ==> x * y < 0
    ensures x < 0 && y < 0 ==> x * y > 0
    ensures x == 0 ==> x * y == 0
  {
  }

  /** The values `pi_values` should hold after the samples whose hit-or-miss is
      `hits`: one estimate each time the sample number is a multiple of `rate`. */
  function Checkpoints(hits: seq<bool>, rate: int): seq<real>
    requires rate >= 1
    decreases |hits|
  {
    if hits == [] then []
    else
      Checkpoints(hits[..|hits| - 1], rate)
      + (if |hits| % rate == 0 then [Estimate(CountHits(hits), |hits|)] else [])
  }

  /** One more sample completes a checkpoint interval exactly when its number is a
      multiple of the rate. */
  lemma DivStep(i: int, rate: int)
    requires i >= 1 && rate >= 1
    ensures i / rate == (i - 1) / rate + (if i % rate == 0 then 1 else 0)
  {
    var q, r := (i - 1) / rate, (i - 1) % rate;
    assert i == q * rate + r + 1;
    if r + 1 < rate {
      DivModUnique(i, rate, q, r + 1);
    } else {
      assert i == (q + 1) * rate + 0;
      DivModUnique(i, rate, q + 1, 0);
    }
  }

  lemma DivModUnique(a: int, b: int, q: int, r: int)
    requires b >= 1 && 0 <= r < b && a == q * b + r
    ensures a / b == q && a % b == r
  {
    var q', r' := a / b, a % b;
    assert a == q' * b + r';
    assert (q - q') * b == r' - r;
    if q > q' {
      MulAtLeast(q - q', b);
    } else if q < q' {
      MulAtLeast(q' - q, b);
    }
  }

  lemma {:induction false} MulAtLeast(d: int, b: int)
    requires d >= 1 && b >= 0
    ensures d * b >= b
  {
    if d > 1 {
      MulAtLeast(d - 1, b);
      assert d * b == (d - 1) * b + b;
    }
  }

  lemma {:induction false} DivMonotone(i: int, n: int, rate: int)
    requires 0 <= i <= n && rate >= 1
    ensures i / rate <= n / rate
    decreases n - i
  {
    if i < n {
      DivStep(n, rate);
      DivMonotone(i, n - 1, rate);
    }
  }

  /** The buffer has exactly `num_samples // pi_collection_rate` slots' worth of
      checkpoints: with 1000 samples and rate 1000 one, with 10000 and 500 twenty. */
  lemma {:induction false} CheckpointsLength(hits: seq<bool>, rate: int)
    requires rate >= 1
    ensures |Checkpoints(hits, rate)| == |hits| / rate
    decreases |hits|
  {
    if hits != [] {
      CheckpointsLength(hits[..|hits| - 1], rate);
      DivStep(|hits|, rate);
    }
  }

  /** The buffer lengths the unit tests expect: one slot for 1000 samples at rate
      1000, twenty for 10000 samples at rate 500. */
  lemma CollectionRateExamples()
    ensures FloorDiv(1000, 1000) == 1 && Rejection(1000, 1000) == None
    ensures FloorDiv(10000, 500) == 20 && Rejection(10000, 500) == None
  {
  }

  /** Slot k holds 4 × (hits among the first (k+1)·rate samples) / ((k+1)·rate),
      the sample count `(i+1)*pi_collection_rate` the report labels it with. */
  lemma {:induction false} CheckpointAt(hits: seq<bool>, rate: int, k: nat)
    requires rate >= 1 && k < |hits| / rate
    ensures (k + 1) * rate <= |hits|
    ensures |Checkpoints(hits, rate)| == |hits| / rate
    ensures Checkpoints(hits, rate)[k] == Estimate(CountHits(hits[..(k + 1) * rate]), (k + 1) * rate)
    decreases |hits|
  {
    var m := |hits|;
    var prefix := hits[..m - 1];
    CheckpointsLength(hits, rate);
    CheckpointsLength(prefix, rate);
    DivStep(m, rate);
    if k < (m - 1) / rate {
      CheckpointAt(prefix, rate, k);
      assert prefix[..(k + 1) * rate] == hits[..(k + 1) * rate];
    } else {
      assert m % rate == 0 && k + 1 == m / rate;
      assert (k + 1) * rate == m by {
        DivExact(m, rate);
      }
      assert hits[..m] == hits;
    }
  }

  lemma DivExact(m: int, rate: int)
    requires rate >= 1 && m % rate == 0
    ensures (m / rate) * rate == m
  {
  }

  /** Every checkpoint lies in [0, 4]. */
  lemma CheckpointsInRange(hits: seq<bool>, rate: int, k: nat)
    requires rate >= 1 && k < |hits| / rate
    ensures |Checkpoints(hits, rate)| == |hits| / rate
    ensures 0.0 <= Checkpoints(hits, rate)[k] <= 4.0
  {
    CheckpointAt(hits, rate, k);
    var j := (k + 1) * rate;
    EstimateInRange(CountHits(hits[..j]), j);
  }

  /** One more sample: the count grows by its hit, and a checkpoint is added when
      its number is a multiple of the rate. */
  lemma SampleStep(draws: seq<Sample>, i: nat, rate: int)
    requires 1 <= i <= |draws| && rate >= 1
    ensures CountHits(Classify(draws, i))
            == CountHits(Classify(draws, i - 1)) + (if Inside(draws[i - 1]) then 1 else 0)
    ensures Checkpoints(Classify(draws, i), rate)
            == Checkpoints(Classify(draws, i - 1), rate)
               + (if i % rate == 0 then [Estimate(CountHits(Classify(draws, i)), i)] else [])
    ensures i / rate == (i - 1) / rate + (if i % rate == 0 then 1 else 0)
  {
    ClassifyPrefix(draws, i, i - 1);
    DivStep(i, rate);
  }

  /** The slot indices in the order they are written: 0, 1, ..., n - 1. */
  function Indices(n: nat): seq<int>
  {
    seq(n, k => k)
  }

  /** `calc_pi_serial`: checkpointing estimator with the norm test. It raises as
      `Rejection` says. Otherwise, for a positive sample count, `pi` is the final
      estimate, the buffer has `num_samples // pi_collection_rate` slots holding the
      checkpoints, and `writes` lists the slots written: each exactly once, in
      increasing order. The result depends on the draws only, and equals that of
      `CalcPi` on the same draws. */
  method CalcPiSerial(numSamples: int, rate: int, draws: seq<Sample>, norm: Sample -> real)
    returns (r: Result<Run>, ghost writes: seq<int>)
    requires Iterations(numSamples) <= |draws|
    requires IsNormOn(norm, draws)
    ensures Rejection(numSamples, rate).Some? ==> r == Failure(Rejection(numSamples, rate).value)
    ensures Rejection(numSamples, rate) == None ==> r.Success?
    ensures r.Success? ==> r.value.piValues.Length == FloorDiv(numSamples, rate)
    ensures r.Success? ==> fresh(r.value.piValues)
    ensures r.Success? && numSamples >= 1 ==> 0.0 <= r.value.pi <= 4.0
    ensures r.Success? && numSamples >= 1 ==>
              var hits := Classify(draws, numSamples);
              && r.value.pi == Estimate(CountHits(hits), numSamples)
              && r.value.piValues[..] == Checkpoints(hits, rate)
              && writes == Indices(r.value.piValues.Length)
    ensures r.Success? && numSamples < 0 ==>
              && r.value.pi == 0.0
              && (forall k :: 0 <= k < r.value.piValues.Length ==> r.value.piValues[k] == 0.0)
              && writes == []
  {
    writes := [];
    if rate == 0 {
      return Failure(ZeroDivisionError), writes;
    }
    var slots := FloorDiv(numSamples, rate);
    if slots < 0 {
      return Failure(NegativeDimensionsError), writes;
    }
    AcceptedArguments(numSamples, rate);
    var piValues := new real[slots](_ => 0.0);
    var numInCircle;
    NormClassifies(norm, draws);
    numInCircle, writes := Fill(piValues, numSamples, rate, draws, NormTest(norm));
    if numSamples == 0 {
      return Failure(ZeroDivisionError), writes;
    }
    if numSamples >= 1 {
      EstimateInRange(numInCircle, numSamples);
    }
    r := Success(Run(4.0 * numInCircle as real / numSamples as real, piValues));
  }

  /** `calc_pi`: the same estimator with the sum-of-squares test; its contract is
      that of `CalcPiSerial`. */
  method CalcPi(numSamples: int, rate: int, draws: seq<Sample>)
    returns (r: Result<Run>, ghost writes: seq<int>)
    requires Iterations(numSamples) <= |draws|
    ensures Rejection(numSamples, rate).Some? ==> r == Failure(Rejection(numSamples, rate).value)
    ensures Rejection(numSamples, rate) == None ==> r.Success?
    ensures r.Success? ==> r.value.piValues.Length == FloorDiv(numSamples, rate)
    ensures r.Success? ==> fresh(r.value.piValues)
    ensures r.Success? && numSamples >= 1 ==> 0.0 <= r.value.pi <= 4.0
    ensures r.Success? && numSamples >= 1 ==>
              var hits := Classify(draws, numSamples);
              && r.value.pi == Estimate(CountHits(hits), numSamples)
              && r.value.piValues[..] == Checkpoints(hits, rate)
              && writes == Indices(r.value.piValues.Length)
    ensures r.Success? && numSamples < 0 ==>
              && r.value.pi == 0.0
              && (forall k :: 0 <= k < r.value.piValues.Length ==> r.value.piValues[k] == 0.0)
              && writes == []
  {
    writes := [];
    if rate == 0 {
      return Failure(ZeroDivisionError), writes;
    }
    var slots := FloorDiv(numSamples, rate);
    if slots < 0 {
      return Failure(NegativeDimensionsError), writes;
    }
    AcceptedArguments(numSamples, rate);
    var piValues := new real[slots](_ => 0.0);
    var numInCircle;
    numInCircle, writes := Fill(piValues, numSamples, rate, draws, Inside);
    if numSamples == 0 {
      return Failure(ZeroDivisionError), writes;
    }
    if numSamples >= 1 {
      EstimateInRange(numInCircle, numSamples);
    }
    r := Success(Run(4.0 * numInCircle as real / numSamples as real, piValues));
  }

  /** The sampling loop that `calc_pi_serial` and `calc_pi` share, over the
      zero-filled buffer. `test` is the inside test: `np.linalg.norm([x, y]) < 1` in
      the first, `x**2 + y**2 < 1` (x drawn before y) in the second. The loop counts
      the samples that pass and, whenever the sample number i is a multiple of the
      rate, writes the running estimate into the next slot. Every write is in
      bounds, the slots are written in increasing order, and the buffer ends
      holding the checkpoints. */
  method Fill(piValues: array<real>, numSamples: int, rate: int, draws: seq<Sample>, test: Sample -> bool)
    returns (numInCircle: nat, ghost writes: seq<int>)
    requires rate != 0 && Iterations(numSamples) <= |draws|
    requires numSamples >= 1 ==> rate >= 1 && piValues.Length == numSamples / rate
    requires forall k :: 0 <= k < piValues.Length ==> piValues[k] == 0.0
    requires Classifies(test, draws)
    modifies piValues
    ensures numInCircle == CountHits(Classify(draws, Iterations(numSamples)))
    ensures numSamples >= 1 ==>
              && piValues[..] == Checkpoints(Classify(draws, numSamples), rate)
              && writes == Indices(piValues.Length)
    ensures numSamples < 1 ==> piValues[..] == old(piValues[..]) && writes == []
  {
    writes := [];
    numInCircle := 0;
    var numPiStored := 0;
    var i := 1;
    while i <= numSamples
      invariant 1 <= i <= Iterations(numSamples) + 1
      invariant numInCircle == CountHits(Classify(draws, i - 1))
      invariant numPiStored == (i - 1) / rate
      invariant numPiStored <= piValues.Length
      invariant numSamples >= 1 ==> piValues[..numPiStored] == Checkpoints(Classify(draws, i - 1), rate)
      invariant forall k :: numPiStored <= k < piValues.Length ==> piValues[k] == old(piValues[k])
      invariant writes == Indices(numPiStored)
    {
      SampleStep(draws, i, rate);
      DivMonotone(i, numSamples, rate);
      if test(draws[i - 1]) {
        numInCircle := numInCircle + 1;
      }
      if i % rate == 0 {
        Store(piValues, numPiStored, numInCircle, i);
        writes := writes + [numPiStored];
        numPiStored := numPiStored + 1;
      }
      i := i + 1;
    }
    if numSamples >= 1 {
      assert numPiStored == piValues.Length;
      assert piValues[..] == piValues[..numPiStored];
    } else {
      assert piValues[..] == old(piValues[..]);
    }
  }

  /** `pi_values[num_pi_stored] = 4*num_in_circle/i`: the running estimate goes into
      the first slot not yet written, and every other slot keeps its value. */
  method Store(piValues: array<real>, numPiStored: nat, numInCircle: nat, i: int)
    requires numPiStored < piValues.Length && i != 0
    modifies piValues
    ensures piValues[..numPiStored + 1] == old(piValues[..numPiStored]) + [Estimate(numInCircle, i)]
    ensures forall k :: numPiStored < k < piValues.Length ==> piValues[k] == old(piValues[k])
  {
    piValues[numPiStored] := 4.0 * numInCircle as real / i as real;
    assert piValues[..numPiStored + 1] == old(piValues[..numPiStored]) + [Estimate(numInCircle, i)];
  }

  /** The arithmetic of `display_difference(original_value, new_value)`: the signed
      difference and its ratio to the original value (printed as a percentage).
      Dividing by an original value of zero raises. */
  function DisplayDifference(originalValue: real, newValue: real): (r: Result<(real, real)>)
    ensures r.Failure? <==> originalValue == 0.0
    ensures r.Success? ==> originalValue + r.value.0 == newValue
    ensures r.Success? ==> r.value.1 * originalValue == r.value.0
  {
    if originalValue == 0.0 then Failure(ZeroDivisionError)
    else
      var diff := newValue - originalValue;
      Success((diff, diff / originalValue))
  }

  /** The unit test's case: from 10.0 to 10.5 the difference is 0.5, that is 5%. */
  lemma DisplayDifferenceExample()
    ensures DisplayDifference(10.0, 10.5) == Success((0.5, 0.05))
  {
  }

  /** "Difference from the previous value" for checkpoint i as the report computes
      it: `display_difference(value, pi_values[i-1])`, with the current value as the
      original and the previous one as the new value. */
  function PreviousDifferenceAsWritten(piValues: seq<real>, i: nat): Result<(real, real)>
    requires 1 <= i < |piValues|
  {
    DisplayDifference(piValues[i], piValues[i - 1])
  }

  /** With checkpoints 2.0 then 4.0 the estimate rose by 2.0, yet the report as
      written shows a difference of -2.0 and a ratio of -50%. */
  lemma PreviousDifferenceSignFlipped()
    ensures PreviousDifferenceAsWritten([2.0, 4.0], 1) == Success((-2.0, -0.5))
    ensures [2.0, 4.0][1] - [2.0, 4.0][0] == 2.0
  {
  }

  /** The difference from the previous checkpoint as the report's wording intends:
      how far checkpoint i moved from checkpoint i - 1, relative to checkpoint i - 1. */
  function PreviousDifference(piValues: seq<real>, i: nat): (r: Result<(real, real)>)
    requires 1 <= i < |piValues|
    ensures r.Failure? <==> piValues[i - 1] == 0.0
    ensures r.Success? ==> r.value.0 == piValues[i] - piValues[i - 1]
    ensures r.Success? ==> piValues[i] == piValues[i - 1] * (1.0 + r.value.1)
  {
    DisplayDifference(piValues[i - 1], piValues[i])
  }
}
