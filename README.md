# Monte-Carlo estimation of pi, modelled in Dafny

The program estimates pi by drawing points uniformly from the unit square and
counting those that fall strictly inside the quarter of the unit circle: after
n samples with c hits the estimate is 4·c/n. It comes in three files:

- `calculating_pi.py`: `calc_pi_serial` (test `norm(x, y) < 1`) and the JIT-compiled
  `calc_pi` (test `x**2 + y**2 < 1`). Both also fill a preallocated buffer
  `pi_values` with the running estimate every `pi_collection_rate` samples.
  `display_difference` reports the difference between two values and its ratio.
- `calculating_pi_njit.py`: the same two estimators without checkpoints.
- `calculating_pi_mpi.py`: the serial estimator and a distributed `calc_pi`. Each
  process (rank) takes `num_samples // size` samples, and rank 0 also takes the
  remainder. Each rank seeds its generator with `seed + rank` and counts its hits.
  The counts are summed onto rank 0, which alone returns the estimate.

The model is four modules, one per source file plus the part they share:

- `MonteCarlo` (`monte_carlo.dfy`): the sample type, the two inside tests and their
  equivalence, hit counting, the estimate, and the counting loop of the norm-test
  functions.
- `CalculatingPi` (`calculating_pi.dfy`): the two checkpointing estimators as
  methods that allocate and fill an `array<real>`. Their two loops differ only in
  the inside test, so they are one method `Fill` that takes the test as a parameter. Also the exceptions they raise on
  bad arguments, the checkpoint specification with its lemmas, and
  `display_difference`.
- `CalculatingPiNjit` (`calculating_pi_njit.dfy`): the two plain estimators.
- `CalculatingPiMpi` (`calculating_pi_mpi.dfy`): the serial estimator, the per-rank
  share and seed, the per-rank count, the sum-reduction and what each rank returns.

How the environment is abstracted:

- The random generator is replaced by the draws it produces. Sample k (from 0)
  consumes the pair `draws[k]`: the two numbers of `np.random.rand(2)`, or two
  successive calls of `np.random.rand()`. In the distributed variant the generator
  seeded with s yields `stream(s)`. Seeding is therefore "same draws, same result":
  every method's postcondition fixes its result as a function of its draws.
- Floating point is `real`. `np.linalg.norm` is a function parameter `norm`, required
  to be non-negative and to square to x² + y² on the supplied draws.
- MPI is abstracted: ranks are indices 0 .. size − 1, and `comm.reduce(..., op=MPI.SUM)`
  is `Sum` over the sequence of per-rank counts.
- Python's exceptions on bad arguments are the error cases of a `Result`.

On bad arguments the checkpointing functions of `calculating_pi.py` raise what Python
raises at `np.zeros(int(num_samples//pi_collection_rate))` (line 35) and at
`4*num_in_circle/num_samples` (line 55). A zero rate or zero samples raise
`ZeroDivisionError`, modelled as `Failure(ZeroDivisionError)`. A negative buffer length
makes `np.zeros` raise a `ValueError`, modelled as `Failure(NegativeDimensionsError)`.
When both counts are negative the functions return 0 and a zero-filled buffer. The
checkpoints are written into a preallocated array, and the model does the same.

## Model

| member | source | states |
|---|---|---|
| MonteCarlo.NormTestAgrees | calculating_pi_njit.py:73-77 | for a non-negative r with r² = x² + y², `r < 1` holds exactly when `x² + y² < 1`, both strict: the norm test and the sum-of-squares test classify every point alike |
| MonteCarlo.NormClassifies | calculating_pi.py:42 | on draws where the norm is exact, `norm(x, y) < 1` classifies every draw as `x**2 + y**2 < 1` does |
| MonteCarlo.CountHits | calculating_pi_njit.py:30-34 | the number of hits among the samples is at most the number of samples |
| MonteCarlo.CountGrowth | calculating_pi_njit.py:30-34 | the running count never decreases, and from sample i to sample j it grows by at most j − i (at most one per iteration) |
| MonteCarlo.EstimateInRange | calculating_pi.py:55 | `4*count/n` lies in [0, 4] when 0 ≤ count ≤ n and n ≥ 1 |
| MonteCarlo.Outcome | calculating_pi_njit.py:36 | dividing the count by `num_samples` raises exactly when it is zero; otherwise the value times n is 4 × count and lies in [0, 4] (0 when n is negative, since no sample is drawn) |
| MonteCarlo.CountInsideByNorm | calculating_pi_njit.py:30-34 | the loop's count is the number of hits among the first m samples, taken in order, and is at most m |
| CalculatingPi.FloorDivIsFloor | calculating_pi.py:35 | Python's `//`: q·b ≤ a < q·b + b for a positive divisor and the mirror image for a negative one |
| CalculatingPi.AcceptedArguments | calculating_pi.py:35-55 | a call raises nothing exactly when both counts are ≥ 1 or both are ≤ −1 |
| CalculatingPi.CheckpointsLength | calculating_pi.py:35 | there are exactly `num_samples // pi_collection_rate` checkpoints |
| CalculatingPi.CollectionRateExamples | calculating_pi.py:210-243 | 1000 samples at rate 1000 give one slot, 10000 at rate 500 give twenty |
| CalculatingPi.CheckpointAt | calculating_pi.py:47-51 | slot k holds 4 × (hits among the first (k+1)·rate samples) / ((k+1)·rate), with (k+1)·rate ≤ n, matching the `(i+1)*pi_collection_rate` label of calculating_pi.py:176 |
| CalculatingPi.CheckpointsInRange | calculating_pi.py:47-51 | every checkpoint lies in [0, 4] |
| CalculatingPi.Fill | calculating_pi.py:38-51 | the loop that both checkpointing functions share, for any inside test that agrees with x² + y² < 1 on the draws: the count is the hits over the first n samples; for n ≥ 1 the buffer of n // rate slots ends holding exactly the checkpoints, the slots written being 0, 1, …, in order and each once; for n < 1 the buffer is unchanged |
| CalculatingPi.Store | calculating_pi.py:50-51 | the write `pi_values[num_pi_stored] = 4*num_in_circle/i` appends the running estimate to the slots already written and leaves every later slot as it was |
| CalculatingPi.CalcPiSerial | calculating_pi.py:27-57 | raises exactly as `Rejection` says. Otherwise the buffer is newly allocated, and for n ≥ 1: pi is the estimate over all n samples, in [0, 4]; the buffer has n // rate slots holding the checkpoints; every write is in bounds; the slots are written once each, in increasing order. For negative counts: pi is 0 and the buffer stays zero. The result is that of `CalcPi` on the same draws |
| CalculatingPi.CalcPi | calculating_pi.py:78-117 | the same contract with the sum-of-squares test, so the two functions agree on the same draws |
| CalculatingPi.DisplayDifference | calculating_pi.py:124-128 | raises exactly when the original value is zero; otherwise original + diff = new and ratio × original = diff |
| CalculatingPi.DisplayDifferenceExample | calculating_pi.py:246-264 | from 10.0 to 10.5 the difference is 0.5 and the ratio 0.05 (5%) |
| CalculatingPi.PreviousDifferenceSignFlipped | calculating_pi.py:179-181 | as written, checkpoints 2.0 then 4.0 are reported as a difference of −2.0 and a ratio of −50% |
| CalculatingPi.PreviousDifference | calculating_pi.py:179-181 | the corrected report: the difference is checkpoint i minus checkpoint i − 1, and checkpoint i = checkpoint i − 1 × (1 + ratio) |
| CalculatingPiNjit.CalcPiSerial | calculating_pi_njit.py:5-38 | returns `Outcome` of the norm-test hits over the first n samples: 4 × count / n in [0, 4], raising for n = 0 |
| CalculatingPiNjit.CalcPi | calculating_pi_njit.py:40-82 | the same result with the sum-of-squares test, x then y from the same pair of draws, so it equals `CalcPiSerial` on the same draws |
| CalculatingPiMpi.CalcPiSerial | calculating_pi_mpi.py:5-38 | 4 × count / n over the first n samples with the norm test, in [0, 4], raising for n = 0 |
| CalculatingPiMpi.SharesSumToTotal | calculating_pi_mpi.py:62-67 | the shares of ranks 0 .. size − 1 add up to exactly `num_samples` |
| CalculatingPiMpi.RankZeroTakesRemainder | calculating_pi_mpi.py:62-67 | every rank but 0 takes `num_samples // size`; rank 0 takes between 0 and size − 1 more |
| CalculatingPiMpi.SeedsDistinct | calculating_pi_mpi.py:70 | distinct ranks seed their generators with distinct seeds |
| CalculatingPiMpi.LocalCount | calculating_pi_mpi.py:61-79 | a rank's `samples_per_proc` is its share, its seed is `seed + rank`, and its count is the hits over its share of its own stream, at most its share |
| CalculatingPiMpi.TotalAtMostSamples | calculating_pi_mpi.py:73-85 | for a non-negative sample count the reduced total of the per-rank counts lies between 0 and `num_samples` |
| CalculatingPiMpi.RankReturn | calculating_pi_mpi.py:84-88 | only rank 0 returns a value; it raises `ZeroDivisionError` exactly for zero samples, and otherwise its value times n is 4 × total |
| CalculatingPiMpi.CalcPi | calculating_pi_mpi.py:57-88 | one result per rank; rank 0's is the estimate from the sum of all per-rank counts, a value in [0, 4] when n ≥ 1; every other rank returns `None` |
| CalculatingPiMpi.SingleProcessMatchesSerial | calculating_pi_mpi.py:62-70 | on one process the share is n and the seed unchanged, so `calc_pi` returns what `calc_pi_serial` returns on the same draws |

## Left out

- The generator's internals (`np.random.seed`, the Mersenne Twister) are replaced by the draws it would produce. The draws are not required to lie in [0, 1), since no stated property depends on it.
- Floating-point rounding is not modelled: values are `real`, and `np.linalg.norm` is any function that is exact on the draws.
- Process communication is not modelled: no `COMM_WORLD`, no blocking in `comm.reduce`, no failure of a worker. The ranks run one after the other in `CalcPi`, which the sum's order-independence makes harmless.
- `num_samples` and `pi_collection_rate` default to the floats `1e5` and `1e3` in the source; the model takes integers only.
- CalculatingPi.DisplayDifference: a zero original value is modelled as raising, as Python floats do. A numpy scalar original gives an infinite or undefined ratio with a warning instead.
- `display_difference` in calculating_pi_njit.py and calculating_pi_mpi.py is the same arithmetic as in calculating_pi.py and is not modelled a second time.
- Console output is not modelled: `output_results`, `evaluate_results`, the f-string formatting, and the printing half of `display_difference`.
- CalculatingPiMpi.CalcPi: the range [0, 4] is stated only for a positive sample count. For a negative count rank 0 may still draw samples (-1 // 3 + -1 % 3 is 1) and return a negative estimate.
- The tests' bound 2.5 < pi < 4.0 is a statistical statement and is not provable; only [0, 4] is.
- The `@njit` functions (`calc_pi` in calculating_pi.py and calculating_pi_njit.py) run on numba's 64-bit integers, where for example `int(num_samples)+1` wraps at 2**63 − 1; the model's integers are unbounded, so that wrap-around is not modelled.
- The `@njit` annotation has no effect on the result and is not modelled. The benchmarks, the unittest scaffolding and the `__main__` blocks are also left out.

## Findings

| source | as written | input that shows it | evidently intended | confidence | as-written member | corrected member |
|---|---|---|---|---|---|---|
| calculating_pi.py:181 | "Difference from the previous value" calls `display_difference(value, pi_values[i-1])`, reporting previous − current relative to the current value | checkpoints [2.0, 4.0]: reported difference −2.0, ratio −50%, though the estimate rose by 2.0 | `display_difference(pi_values[i-1], value)`: current − previous, relative to the previous value | medium, not executed | CalculatingPi.PreviousDifferenceSignFlipped | CalculatingPi.PreviousDifference |
