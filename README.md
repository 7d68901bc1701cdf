# Stream selection engine of the filtered-MNIST DMGT experiment

This project models in Dafny the part of `experiments/mnist_filtered_dmgt.py`
that decides which stream items reach the training set in each selection round:

- **Label counting and the coverage score** (`class_card`). The labels selected
  so far are counted per class. The score pair is
  `(Σ_c p_c·sqrt(count_c + 1), Σ_c p_c·sqrt(count_c))`, and the marginal of an
  item is the first score minus the second.
- **DMGT** (`get_DIST_DMGT_subsets`). The first stream item is kept
  unconditionally. Every later item is tested once, in order. It is appended
  when its marginal is at least `taus[sel_round]` and the selection is below
  `budget`.
- **SIEVE** (`get_SIEVE_subsets`). A geometric guess list `O = [1.1^1, 1.1^2, …]`
  runs up to `2·len(stream)`. Each guess `v` grows its own set with the
  threshold `(v/2 − f_without)/(budget − |S_v|)`. The set with the largest
  `Σ_c sqrt(count_c)` is returned; on ties, the earliest guess wins.
- **Two-tier aggregation** (the round body of `experiment`). Every agent's batch
  goes through each selector. The outputs are concatenated in ascending agent
  order. Each selector then runs once more, centrally, on its pool.

The neural network and its calibration are replaced by a probability oracle
`prob(x, c)`, and `np.sqrt` by an arbitrary function `root` on counts. Both are
fields of `Utility.Scorer`. Lemmas that need them to be non-negative or
monotone say so in their `requires`. Items are `Counting.Item(x, y)` pairs: the
abstract features `x` together with the integer label `y`.

Where the source raises an exception, the model returns `None`:

- DMGT on an empty stream (`stream_x[0]`).
- DMGT on a stream of two or more items when `sel_round` is past the end of
  `taus`.
- SIEVE on an empty stream.
- SIEVE on a one-item stream. No guess is ever created, so `set_dict[None]`
  fails.
- SIEVE on a two-item stream. The chosen guess has an empty threshold trace,
  so `min()` fails.
- A round, as soon as any of its selector calls raises (three per agent, then
  three central).

Files and modules:

| file | module | contents |
|---|---|---|
| `wrappers.dfy` | `Wrappers` | `Option` |
| `counting.dfy` | `Counting` | items, label counts |
| `utility.dfy` | `Utility` | the oracle, the `class_card` scores, the marginal, the balance score |
| `greedy.dfy` | `Greedy` | the threshold scan that DMGT and every SIEVE guess share, and subsequence facts |
| `dmgt.dfy` | `Dmgt` | `get_DIST_DMGT_subsets` |
| `sieve.dfy` | `Sieve` | `get_SIEVE_subsets` |
| `aggregation.dfy` | `Aggregation` | the per-agent → concatenate → central round body |

Each imperative routine of the source is a Dafny `method` with loops. Each is
proved equal to a specification function (`DmgtSelect` to `DmgtSpec`,
`SieveSelect` to `SieveSpec`, `BuildGuessDomain` to `GuessDomain`,
`SelectionRound` to `RoundSpec`). The lemmas state the properties of those
functions.

Points where the code differs from a plain reading of the algorithm. The model
follows the code in each case:

- The `+1` of `class_card` goes to every class, not only the item's predicted
  class (`experiments/mnist_filtered_dmgt.py:67`). This is why the marginal is
  the sum over all classes of `p_c·(sqrt(count_c+1) − sqrt(count_c))`.
- The guess list starts at `j = 1`, so `1.1^0 = 1` is never a guess, and the
  `epsilon` argument is overwritten with `0.1` (`:117-123`).
- `stream[1]` is never tested by any guess. At `i = 1` every guess is new and is
  only seeded (`:128-131`). So a SIEVE set is the scan of `stream[2..]` from
  `stream[0]`.
- SIEVE needs at least three items.
- A single agent's two-tier DMGT equals one DMGT run (`DmgtSingleAgent`). This
  is not true of SIEVE: a pool of fewer than three items makes the central SIEVE
  call raise (`SieveSmallPoolFails`).

## Model

| member | source | states |
|---|---|---|
| Counting.Count | experiments/mnist_filtered_dmgt.py:65 | the count for class `c` is the number of labels equal to `c` (its multiplicity in the label multiset), at most the number of labels |
| Counting.LabelCounts | experiments/mnist_filtered_dmgt.py:65 | `label_counts` has one entry per class `0..k-1`, each the number of selected labels equal to that class |
| Counting.CountsAppend | experiments/mnist_filtered_dmgt.py:65 | appending a label raises the total of the counts by one exactly when the label is one of the `k` classes, and otherwise leaves it unchanged |
| Counting.LabelCountsSum | experiments/mnist_filtered_dmgt.py:65 | the counts add up to at most the number of labels, and to exactly that number iff every label lies in `[0, num_classes)` |
| Utility.CoverageDifference | experiments/mnist_filtered_dmgt.py:67 | the with-item score minus the without-item score equals `Σ_c p_c·(sqrt(c_c+1) − sqrt(c_c))`, for any count vector |
| Utility.MarginalIsGainSum | experiments/mnist_filtered_dmgt.py:65-67 | `f_values[0] − f_values[1]` equals the gain sum over the label counts of the selected set: the `+1` applies to every class |
| Utility.GainsNonNegative | experiments/mnist_filtered_dmgt.py:67 | with non-negative probabilities and a monotone root, the gain sum is at least 0 for any counts |
| Utility.MarginalNonNegative | experiments/mnist_filtered_dmgt.py:65-67 | with non-negative probabilities and a monotone root, adding an item never lowers the score: the marginal is ≥ 0 |
| Utility.ClassCardIgnoresOrder | experiments/mnist_filtered_dmgt.py:65-67 | the score pair depends only on the multiset of selected labels, not on their order |
| Utility.BalanceIgnoresOrder | experiments/mnist_filtered_dmgt.py:152-153 | SIEVE's balance score `Σ_c sqrt(count_c)` depends only on the multiset of labels |
| Greedy.Scan | experiments/mnist_filtered_dmgt.py:84-96 | the scanned set starts with the seed and holds between 1 and `max(1, budget)` items, and at most one more than the items scanned |
| Greedy.Picks | experiments/mnist_filtered_dmgt.py:84-96 | one accepted position per appended item, each a position of the scanned items |
| Greedy.ScanAtPick | experiments/mnist_filtered_dmgt.py:94-96 | the `k`-th appended item is the item at the `k`-th accepted position: items are appended unchanged |
| Greedy.PicksIncrease | experiments/mnist_filtered_dmgt.py:84-96 | accepted positions strictly increase: items are appended in stream order, each at most once |
| Greedy.PickedIff | experiments/mnist_filtered_dmgt.py:94 | a position is accepted iff its item passes the test against the set built from the items before it |
| Greedy.ScanEmbeds | experiments/mnist_filtered_dmgt.py:84-96 | the seed at position 0 and the accepted positions, shifted by the offset of the scanned items, spell out the scanned set in the stream |
| Greedy.ScanIsSubsequence | experiments/mnist_filtered_dmgt.py:84-96 | the scanned set is an order-preserving subsequence of seed followed by the items |
| Greedy.ScanStopsWhenFull | experiments/mnist_filtered_dmgt.py:94 | once the set reaches `budget`, later items change nothing |
| Greedy.ScanGrows | experiments/mnist_filtered_dmgt.py:95-96 | the set built from a prefix of the items is a prefix of the final set: nothing is removed or reordered |
| Greedy.ScanIdempotent | experiments/mnist_filtered_dmgt.py:84-96 | re-scanning a scan's output from its first item returns it unchanged |
| Dmgt.DmgtSpec | experiments/mnist_filtered_dmgt.py:81-98 | DMGT fails exactly on an empty stream, or on two or more items with `sel_round` past `taus`; otherwise it returns 1 to `max(1, budget)` items, no more than the stream holds, starting with `stream[0]` |
| Dmgt.DmgtSelect | experiments/mnist_filtered_dmgt.py:69-98 | the loop of `get_DIST_DMGT_subsets`, growing the selection item by item, returns exactly `DmgtSpec` |
| Dmgt.PrefixIsScan | experiments/mnist_filtered_dmgt.py:81-96 | DMGT on the first `i` items is the scan of items `1..i-1` seeded with `stream[0]` |
| Dmgt.DmgtSubsequence | experiments/mnist_filtered_dmgt.py:81-98 | the output is the stream at increasing positions, the first being 0: it begins with `stream[0]` and is an order-preserving subsequence |
| Dmgt.DmgtAcceptsExactly | experiments/mnist_filtered_dmgt.py:94-96 | item `i ≥ 1` is selected iff the set chosen from the earlier items is below budget and the item's marginal against it is ≥ `taus[sel_round]` (ties accepted) |
| Dmgt.DmgtGrows | experiments/mnist_filtered_dmgt.py:94-96 | the selection from a stream prefix is a prefix of the full selection |
| Dmgt.DmgtStopsWhenFull | experiments/mnist_filtered_dmgt.py:94 | once the selection has `budget` items, the rest of the stream adds nothing |
| Dmgt.DmgtIdempotent | experiments/mnist_filtered_dmgt.py:81-98 | DMGT re-run on its own output, with the same thresholds, round and budget, returns that output |
| Sieve.Bernoulli | experiments/mnist_filtered_dmgt.py:121 | `1.1^j ≥ 1 + 0.1·j`, which bounds how long the guess loop runs |
| Sieve.PowIncreasing | experiments/mnist_filtered_dmgt.py:121-122 | powers of 1.1 strictly increase with the exponent |
| Sieve.GuessesFrom | experiments/mnist_filtered_dmgt.py:119-123 | from exponent `j`, the guesses are the successive powers `1.1^(j+k)`, each in `[m, 2·m·n]`, ending just before the first power above `2·m·n` |
| Sieve.GuessDomain | experiments/mnist_filtered_dmgt.py:117-123 | the guess list is non-empty iff the stream is non-empty |
| Sieve.GuessDomainShape | experiments/mnist_filtered_dmgt.py:117-123 | `O[k] = 1.1^(k+1)` and `1 ≤ O[k] ≤ 2·len(stream)`; `O` strictly increases; the next power exceeds `2·len(stream)` |
| Sieve.BuildGuessDomain | experiments/mnist_filtered_dmgt.py:117-123 | the `while` loop that appends to `O` produces exactly the guess list |
| Sieve.GuessTable | experiments/mnist_filtered_dmgt.py:124-146 | `set_dict` holds one set per guess, and there is at least one guess |
| Sieve.FirstMax | experiments/mnist_filtered_dmgt.py:148-156 | the chosen index attains the maximum, and every earlier index is strictly smaller |
| Sieve.FirstMaxUnique | experiments/mnist_filtered_dmgt.py:151-156 | any index that is a maximum with every earlier index strictly below it is the first maximum |
| Sieve.ArgmaxBalance | experiments/mnist_filtered_dmgt.py:148-156 | the argmax loop with strict `>` returns no key iff there is no set, otherwise the first guess of maximal balance |
| Sieve.SieveSpec | experiments/mnist_filtered_dmgt.py:111-160 | SIEVE returns a set iff the stream has at least three items |
| Sieve.SievePass | experiments/mnist_filtered_dmgt.py:128-144 | one pass over the guesses: a guess without a set is seeded with `stream[0]` untested; every other guess appends the item iff the per-guess test passes; the pass leaves one set per guess |
| Sieve.SieveSelect | experiments/mnist_filtered_dmgt.py:100-162 | the nested loops and the argmax of `get_SIEVE_subsets` return exactly `SieveSpec`, including its three failing cases |
| Sieve.SieveGuessShape | experiments/mnist_filtered_dmgt.py:126-131 | every guess's set is `[stream[0]]` after the first pass; it starts with `stream[0]`, is an order-preserving subsequence of the stream, never contains position 1, and has at most `max(1, budget)` items |
| Sieve.SieveGuessAcceptsExactly | experiments/mnist_filtered_dmgt.py:141-144 | item `i ≥ 2` joins guess `v`'s set iff that set is below budget and the marginal is ≥ `(v/2 − f_without)/(budget − \|S_v\|)` |
| Sieve.SieveGuessStopsWhenFull | experiments/mnist_filtered_dmgt.py:143 | a guess whose set reached `budget` stops growing |
| Sieve.SieveResult | experiments/mnist_filtered_dmgt.py:148-158 | the result is the set of the first guess, in `O` order, with maximal `Σ_c sqrt(count_c)`; every earlier guess scores strictly less; it starts with `stream[0]`, fits in `max(1, budget)` and is an order-preserving subsequence of the stream |
| Aggregation.RunSelector | experiments/mnist_filtered_dmgt.py:536-569 | calling a lineage's selector method yields that lineage's specification result |
| Aggregation.RunShape | experiments/mnist_filtered_dmgt.py:536-569 | a successful run of either selector returns 1 to `max(1, budget)` items, starting with the stream's first item, in stream order |
| Aggregation.PoolDefined | experiments/mnist_filtered_dmgt.py:532-576 | the pool exists iff no agent's selector call raises |
| Aggregation.PoolIsConcat | experiments/mnist_filtered_dmgt.py:571-576 | the pool is the concatenation of the agents' outputs in ascending agent order |
| Aggregation.PoolSize | experiments/mnist_filtered_dmgt.py:532-576 | the pool holds between `num_agents` and `num_agents·max(1, budget)` items |
| Aggregation.PoolStart | experiments/mnist_filtered_dmgt.py:532-576 | the pool starts with agent 0's first stream item |
| Aggregation.PoolKeepsOrder | experiments/mnist_filtered_dmgt.py:571-578 | the pool is an order-preserving subsequence of the agents' concatenated streams |
| Aggregation.TwoTierShape | experiments/mnist_filtered_dmgt.py:580-613 | the central selection has 1 to `max(1, budget)` items, starts with agent 0's first item, and is a subsequence of the pool and of the concatenated streams |
| Aggregation.DmgtSingleAgent | experiments/mnist_filtered_dmgt.py:536-590 | with one agent, two-tier DMGT returns exactly what one DMGT run returns, failure included |
| Aggregation.SieveSmallPoolFails | experiments/mnist_filtered_dmgt.py:604-613 | when `num_agents·max(1, budget) < 3`, the central SIEVE call always raises |
| Aggregation.RoundShape | experiments/mnist_filtered_dmgt.py:580-613 | a completed round gives three central selections, each within `max(1, budget)` and in the order of the concatenated streams |
| Aggregation.SelectionRound | experiments/mnist_filtered_dmgt.py:532-613 | the per-agent loop with its three accumulators, followed by the three central calls, returns exactly `RoundSpec` |

## Left out

- The neural network, softmax and isotonic calibration that produce the probability vector (`:48-62`) are not modelled. They are floating-point numerics and foreign library calls. They are replaced by the oracle `prob` of `Utility.Scorer`.
- `np.sqrt` is not modelled. It is the arbitrary function `root`. Only monotonicity is assumed, and only where a lemma needs it.
- Floating-point rounding is not modelled. The guesses `1.1^j`, the scores and the thresholds are exact reals.
- When a SIEVE set is full, `budget − |S_v|` is zero and torch yields `inf`/`nan` rather than raising. The model never divides here: the budget test comes first, and the conjunction has the same truth value.
- Sieve.SieveSelect: the `epsilon` parameter is accepted and ignored. The source overwrites it with `0.1`.
- The SIEVE threshold trace (`taus`, `new_taus`, `sel_taus` with its min/max, `:125-160`) is not modelled. It is a diagnostic only. Its one effect on the result, the failure on a two-item stream, is part of `SieveSpec`.
- The RAND baseline (`:615-617`) is not modelled. It is random sampling with nothing deterministic to state.
- The bookkeeping of `sizes`, `sum_sizes` and `sieve_taus` is not modelled, and neither is persistence (`:619-629`). Note that the source records the RAND counts in the SIEVE slot (`:626`).
- Training, evaluation, data loading, the stream iterators (`next(stream_samples_dict[agent])`), the loop over rounds and trials, plotting and the command line are not modelled. The batches of a round are an input.
- Concurrency is not modelled. The source is sequential.
- Items are `(x, y)` pairs rather than parallel `x`/`y` tensors. The tensors always grow together, so nothing is lost.
