/** calculating_pi_mpi.py: the plain serial estimator and the distributed `calc_pi`.
    In the distributed one every process (rank) takes a share of the samples, seeds
    its generator with `seed + rank`, counts its hits, and the counts are summed onto
    rank 0, which alone returns the estimate.

    The message passing is abstracted: ranks are the indices 0 .. size - 1, the
    generator seeded with s produces the draws `stream(s)`, and `comm.reduce` with
    `MPI.SUM` is the sum over the sequence of per-rank counts. */
module CalculatingPiMpi {
  import opened MonteCarlo

  /** `calc_pi_serial`: the count of samples whose norm is below 1, times 4, over
      `num_samples`. The result lies in [0, 4] and raises for zero samples. */
  method CalcPiSerial(numSamples: int, draws: seq<Sample>, norm: Sample -> real) returns (r: Result<real>)
    requires Iterations(numSamples) <= |draws|
    requires IsNormOn(norm, draws)
    ensures r == Outcome(Classify(draws, Iterations(numSamples)), numSamples)
    ensures r.Success? ==> 0.0 <= r.value <= 4.0
  {
    var numInCircle := CountInsideByNorm(draws, Iterations(numSamples), norm);
    if numSamples == 0 {
      return Failure(ZeroDivisionError);
    }
    r := Success(4.0 * numInCircle as real / numSamples as real);
  }

  /** `samples_per_proc` of a rank: `num_samples // size`, and rank 0 also takes
      the remainder `num_samples % size`. The divisor is positive, so Python's `//`
      and `%` agree with Dafny's `/` and `%`. */
  function Share(numSamples: int, size: int, rank: int): int
    requires size >= 1
  {
    numSamples / size + (if rank == 0 then numSamples % size else 0)
  }

  /** The shares of ranks 0 .. size - 1. */
  function Shares(numSamples: int, size: int): seq<int>
    requires size >= 1
  {
    seq(size, rank => Share(numSamples, size, rank))
  }

  /** The seed rank `rank` gives its generator. */
  function RankSeed(seed: int, rank: int): int
  {
    seed + rank
  }

  /** The sum-reduction `comm.reduce(..., op=MPI.SUM)`. */
  function Sum(s: seq<int>): int
  {
    if s == [] then 0 else Sum(s[..|s| - 1]) + s[|s| - 1]
  }

  /** Every rank's generator supplies at least the samples its share draws. */
  predicate Supplied(numSamples: int, size: int, seed: int, stream: int -> seq<Sample>)
    requires size >= 1
  {
    forall rank :: 0 <= rank < size ==> Iterations(Share(numSamples, size, rank)) <= |stream(RankSeed(seed, rank))|
  }

  /** The hits rank `rank` counts over its share of its own stream. */
  function RankCount(numSamples: int, size: int, seed: int, stream: int -> seq<Sample>, rank: int): nat
    requires size >= 1 && 0 <= rank < size
    requires Supplied(numSamples, size, seed, stream)
  {
    CountHits(Classify(stream(RankSeed(seed, rank)), Iterations(Share(numSamples, size, rank))))
  }

  /** The counts of ranks 0 .. size - 1, in rank order. */
  function RankCounts(numSamples: int, size: int, seed: int, stream: int -> seq<Sample>): seq<int>
    requires size >= 1
    requires Supplied(numSamples, size, seed, stream)
  {
    seq(size, rank requires 0 <= rank < size => RankCount(numSamples, size, seed, stream, rank))
  }

  /** What a rank returns once the total is known: rank 0 the estimate
      `4*total_in_circle/num_samples` (raising for zero samples), every other rank
      `None`. */
  function RankReturn(rank: int, numSamples: int, totalInCircle: int): (r: Option<Result<real>>)
    ensures r.Some? <==> rank == 0
    ensures r.Some? ==> (r.value.Failure? <==> numSamples == 0)
    ensures r.Some? && r.value.Failure? ==> r.value.error == ZeroDivisionError
    ensures r.Some? && r.value.Success? ==> r.value.value * numSamples as real == 4.0 * totalInCircle as real
  {
    if rank != 0 then None
    else if numSamples == 0 then Some(Failure(ZeroDivisionError))
    else Some(Success(Estimate(totalInCircle, numSamples)))
  }

  /** The shares of all ranks add up to exactly `num_samples`. */
  lemma SharesSumToTotal(numSamples: int, size: int)
    requires size >= 1
    ensures Sum(Shares(numSamples, size)) == numSamples
  {
    var shares := Shares(numSamples, size);
    SharesPrefixSum(numSamples, size, size);
    assert shares[..size] == shares;
  }

  lemma {:induction false} SharesPrefixSum(numSamples: int, size: int, k: nat)
    requires size >= 1 && k <= size
    ensures Sum(Shares(numSamples, size)[..k])
            == k * (numSamples / size) + (if k > 0 then numSamples % size else 0)
  {
    if k > 0 {
      var shares := Shares(numSamples, size);
      SharesPrefixSum(numSamples, size, k - 1);
      assert shares[..k][..k - 1] == shares[..k - 1];
      assert k * (numSamples / size) == (k - 1) * (numSamples / size) + numSamples / size;
    }
  }

  /** Every rank but 0 draws `num_samples // size` samples, and rank 0 draws at most
      size - 1 more, since the remainder is less than size. */
  lemma RankZeroTakesRemainder(numSamples: int, size: int, rank: int)
    requires size >= 1 && 1 <= rank < size
    ensures Share(numSamples, size, rank) == numSamples / size
    ensures 0 <= Share(numSamples, size, 0) - Share(numSamples, size, rank) <= size - 1
  {
  }

  /** The ranks seed their generators with pairwise distinct seeds. */
  lemma SeedsDistinct(seed: int, rank1: int, rank2: int)
    requires rank1 != rank2
    ensures RankSeed(seed, rank1) != RankSeed(seed, rank2)
  {
  }

  lemma {:induction false} SumMonotone(a: seq<int>, b: seq<int>)
    requires |a| == |b|
    requires forall i :: 0 <= i < |a| ==> a[i] <= b[i]
    ensures Sum(a) <= Sum(b)
  {
    if a != [] {
      SumMonotone(a[..|a| - 1], b[..|b| - 1]);
    }
  }

  lemma {:induction false} SumNonNegative(a: seq<int>)
    requires forall i :: 0 <= i < |a| ==> 0 <= a[i]
    ensures 0 <= Sum(a)
  {
    if a != [] {
      SumNonNegative(a[..|a| - 1]);
    }
  }

  /** With at least one sample, no rank draws a negative share, every rank counts at
      most its share, and the reduced total is at most `num_samples`. */
  lemma TotalAtMostSamples(numSamples: int, size: int, seed: int, stream: int -> seq<Sample>)
    requires size >= 1 && numSamples >= 0
    requires Supplied(numSamples, size, seed, stream)
    ensures 0 <= Sum(RankCounts(numSamples, size, seed, stream)) <= numSamples
  {
    var counts := RankCounts(numSamples, size, seed, stream);
    var shares := Shares(numSamples, size);
    forall i | 0 <= i < size
      ensures 0 <= counts[i] <= shares[i]
    {
      assert Share(numSamples, size, i) >= 0;
    }
    SumNonNegative(counts);
    SumMonotone(counts, shares);
    SharesSumToTotal(numSamples, size);
  }

  /** One rank's part of `calc_pi`: its share, its seed, and its hit count over its
      share of the draws its seeded generator yields. Its count is at most its share. */
  method LocalCount(numSamples: int, size: int, rank: int, seed: int,
                    stream: int -> seq<Sample>, norm: Sample -> real)
    returns (samplesPerProc: int, rankSeed: int, numInCircle: nat)
    requires size >= 1 && 0 <= rank < size
    requires Iterations(Share(numSamples, size, rank)) <= |stream(RankSeed(seed, rank))|
    requires IsNormOn(norm, stream(RankSeed(seed, rank)))
    ensures samplesPerProc == Share(numSamples, size, rank)
    ensures rankSeed == RankSeed(seed, rank)
    ensures numInCircle == CountHits(Classify(stream(rankSeed), Iterations(samplesPerProc)))
    ensures numInCircle <= Iterations(samplesPerProc)
  {
    samplesPerProc := numSamples / size;
    if rank == 0 {
      samplesPerProc := samplesPerProc + numSamples % size;
    }
    rankSeed := seed + rank;
    numInCircle := CountInsideByNorm(stream(rankSeed), Iterations(samplesPerProc), norm);
  }

  /** `calc_pi` run on `size` processes: entry `rank` of `results` is what that rank
      returns. Rank 0 returns 4 × (sum of the per-rank counts) / `num_samples`, in
      [0, 4] for a positive sample count; every other rank returns `None`. */
  method CalcPi(numSamples: int, size: int, seed: int, stream: int -> seq<Sample>, norm: Sample -> real)
    returns (results: seq<Option<Result<real>>>)
    requires size >= 1
    requires Supplied(numSamples, size, seed, stream)
    requires forall rank :: 0 <= rank < size ==> IsNormOn(norm, stream(RankSeed(seed, rank)))
    ensures |results| == size
    ensures results[0] == RankReturn(0, numSamples, Sum(RankCounts(numSamples, size, seed, stream)))
    ensures forall rank :: 1 <= rank < size ==> results[rank] == None
    ensures numSamples >= 1 ==> results[0].Some? && results[0].value.Success?
    ensures numSamples >= 1 ==> 0.0 <= results[0].value.value <= 4.0
  {
    // Every rank runs its part independently.
    var counts: seq<int> := [];
    var rank := 0;
    while rank < size
      invariant 0 <= rank <= size
      invariant counts == RankCounts(numSamples, size, seed, stream)[..rank]
    {
      var samplesPerProc, rankSeed, numInCircle := LocalCount(numSamples, size, rank, seed, stream, norm);
      counts := counts + [numInCircle];
      rank := rank + 1;
    }
    assert counts == RankCounts(numSamples, size, seed, stream);
    // comm.reduce(num_in_circle, op=MPI.SUM, root=0)
    var totalInCircle := Sum(counts);
    results := seq(size, rank => RankReturn(rank, numSamples, totalInCircle));
    if numSamples >= 1 {
      TotalAtMostSamples(numSamples, size, seed, stream);
      EstimateInRange(totalInCircle, numSamples);
    }
  }

  /** On a single process the share is all of `num_samples` and the seed is
      unchanged, so `calc_pi` returns what `calc_pi_serial` returns on the same draws. */
  lemma SingleProcessMatchesSerial(numSamples: int, seed: int, stream: int -> seq<Sample>)
    requires Supplied(numSamples, 1, seed, stream)
    ensures Iterations(numSamples) <= |stream(seed)|
    ensures RankReturn(0, numSamples, Sum(RankCounts(numSamples, 1, seed, stream)))
            == Some(Outcome(Classify(stream(seed), Iterations(numSamples)), numSamples))
  {
    assert Share(numSamples, 1, 0) == numSamples;
    assert RankSeed(seed, 0) == seed;
    var counts := RankCounts(numSamples, 1, seed, stream);
    assert counts[..0] == [];
  }
}
