# DriverIRIC: windowed dominance and paired-run bookkeeping

This project models the core of `DriverIRIC`, the driver of the credit-based
(IRIC) kidney-exchange mechanism experiments. It covers two parts.

- **The dominance scan**, `getDominatedPeriod` (module `Dominance`, file
  `dominance.dfy`). It walks two series of cumulative match counts side by
  side. A counter of consecutive periods in which the dominator is at least
  the dominatee goes up by one, or drops to 0 on a strict failure. The scan
  stops at the first index where the counter reaches `domMaxPeriods`. The
  method `DominatedPeriod` keeps the source's `for` loop, counter and `break`.
  It is proved equal to `DominatedPeriodOf`, a reference definition stated
  over windows: `WindowEndsAt(a, b, w, e)` holds when the `w` periods ending
  at `e` all dominate, and `FirstWindowEndFrom` finds the first such `e`. The
  loop invariant says the counter equals `RunLength`, the length of the
  longest dominating run ending at the current index.
- **The bookkeeping of `main`** (module `Iric`, file `iric.dfy`). The class
  `Experiment` holds:
  - the three seeds;
  - the states of the three random streams: `setSeed` sets a stream to the
    seed it is given, and a simulator run moves all three to states given by
    the constant function `consumed(cell, seeds, truthful)`;
  - the truthful result of the current pair (`truthfulRes`);
  - the rows written so far.

  `RunRepetition` advances every seed by one. `RunPair` then runs the
  two-element truthful/non-truthful loop, and `RunVariant` resets all three
  streams to the current seeds before each run. The truthful run moves the
  streams, so it is the reset before the second run that makes the
  non-truthful run start from the same stream states. `RunCell` is the repetition
  loop. `Sweep` covers the whole parameter nest. `Valid()` states the seed
  protocol: after n repetitions the seeds are the initial seeds plus n, so
  the two runs of the n-th repetition both start from the initial seeds
  plus n.

The simulator is a constant function `sim(cell, seeds, truthful)` of the
cell, the stream states the run starts from and the flag. It yields `None`
when the run fails with a solver exception. Its effect on the streams is
`consumed`, applied after failed runs too. Because both depend only on their
arguments, the protocol guarantees that the two runs of a pair differ only in
the truthfulness flag. The model assumes that the simulator returns
series of exactly `simTimePeriods` entries, for the aggregate and for each of
the |H| hospitals (`SimWellFormed`). Under that assumption `main` never reads
past the end of a series.

An output row records the run's seeds, its cell, its flag and its match
counts, plus the two dominance columns. The per-hospital average column is
kept as the integer sum and the hospital count (`AverageOf(sum, count)`).
The floating-point division is not modelled.

### Where the code and its documentation disagree (the model follows the code)

- The doc comment of `getDominatedPeriod` promises "the first index of
  domination". The code returns `timeIdx - dominatedCtr`. When the counter
  reaches `w` at index `e`, the window is `[e-w+1, e]`, so the value is the
  index just before the window (`FoundWindow`). A window that starts at
  index 0 therefore gives -1, the same value as "no window"
  (`WindowAtStartGivesMinusOne`, `MinusOneMeaning`). In the per-hospital sum,
  such a hospital counts as `simTimePeriods`, exactly like one that is never
  dominated (`ImmediateDominationCountsAsNever`).
- Read as "first index of the window", the doc comment would give 0 for
  `[1,2,3,3,3,3,3]` over `[1,2,2,2,2,2,2]` with window 3, and 3 for
  `[5,5,1,5,5,5]` over `[5,5,5,5,5,5]` with window 3. The code gives -1 and 2
  (`WindowAtStartExample`, `CounterResetExample`).
- The code does not reject series of different lengths up front. It throws
  only when the scan reaches an index the dominatee lacks. The model returns `IndexOutOfBounds(index)` in exactly
  that case (`OutOfBoundsIff`); a dominatee longer than the dominator is
  accepted.
- For `domMaxPeriods <= 0` the code stops at index 0. It returns -1 if
  period 0 dominates and 0 otherwise. `DominatedPeriodOf` states this case
  explicitly.

## Model

| member | source | states |
|---|---|---|
| `Dominance.DominatedPeriod` | src/edu/cmu/cs/dickerson/kpd/dynamic/DriverIRIC.java:224-236 | the scan returns exactly `DominatedPeriodOf`: the first window end minus `w`, or -1, or the index where the dominatee runs out; its loop keeps the counter equal to the longest dominating run, below `w` until the break |
| `Dominance.RunLength` | src/edu/cmu/cs/dickerson/kpd/dynamic/DriverIRIC.java:226-232 | the counter's meaning: at most the number of periods read, its last `k` periods all dominate, and the period before them does not (longest dominating suffix) |
| `Dominance.FirstWindowEndFrom` | src/edu/cmu/cs/dickerson/kpd/dynamic/DriverIRIC.java:233 | a found stopping index lies at or after the start and closes a full window |
| `Dominance.WindowIffRunLength` | src/edu/cmu/cs/dickerson/kpd/dynamic/DriverIRIC.java:228-233 | a window of `w` dominating periods ends at `e` exactly when the counter at `e` has reached `w` |
| `Dominance.FirstFromNoneIff` | src/edu/cmu/cs/dickerson/kpd/dynamic/DriverIRIC.java:226-235 | the scan finds no stopping index exactly when no window ends at or after the start |
| `Dominance.FirstFromSome` | src/edu/cmu/cs/dickerson/kpd/dynamic/DriverIRIC.java:233 | the stopping index found is a window end, and no earlier index from the start is one (the `break`) |
| `Dominance.FirstFromLeast` | src/edu/cmu/cs/dickerson/kpd/dynamic/DriverIRIC.java:233 | if any window ends at `e`, the scan stops at or before `e` |
| `Dominance.NoWindowGivesMinusOne` | src/edu/cmu/cs/dickerson/kpd/dynamic/DriverIRIC.java:225-235 | with no run of `w` dominating periods (and a dominatee at least as long) the result is -1 |
| `Dominance.EmptyDominatorGivesMinusOne` | src/edu/cmu/cs/dickerson/kpd/dynamic/DriverIRIC.java:225-235 | an empty dominator gives -1 for every `domMaxPeriods` and every dominatee |
| `Dominance.FoundWindow` | src/edu/cmu/cs/dickerson/kpd/dynamic/DriverIRIC.java:228-233 | a result `p >= 0` means the scan stopped at `p + w` inside both series, every period in `[p+1, p+w]` dominates, period `p` does not, and no earlier index closes a window |
| `Dominance.WindowAtStartGivesMinusOne` | src/edu/cmu/cs/dickerson/kpd/dynamic/DriverIRIC.java:233 | a window starting at index 0 is reported as -1 |
| `Dominance.MinusOneMeaning` | src/edu/cmu/cs/dickerson/kpd/dynamic/DriverIRIC.java:225-235 | a result of -1 means either no window at all (with the dominatee lasting) or a window starting at index 0 |
| `Dominance.PeriodRange` | src/edu/cmu/cs/dickerson/kpd/dynamic/DriverIRIC.java:233 | for `w >= 1` the result is -1 or lies in `[0, dominator.size()-1-w]` |
| `Dominance.OutOfBoundsIff` | src/edu/cmu/cs/dickerson/kpd/dynamic/DriverIRIC.java:226-228 | reading past the dominatee happens exactly when it is shorter than the dominator and no window closes within it, and it happens at index `dominatee.size()` |
| `Dominance.EqualLengthsGivePeriod` | src/edu/cmu/cs/dickerson/kpd/dynamic/DriverIRIC.java:226-228 | a dominatee at least as long as the dominator never makes the scan fail |
| `Dominance.IdenticalSeriesGiveMinusOne` | src/edu/cmu/cs/dickerson/kpd/dynamic/DriverIRIC.java:228 | ties count as domination: identical series of length at least `w` are dominated from index 0 and reported as -1 |
| `Dominance.ExtendAfterDetection` | src/edu/cmu/cs/dickerson/kpd/dynamic/DriverIRIC.java:233 | once a window exists, appending periods to both series leaves the result unchanged |
| `Dominance.WindowAtStartExample` | src/edu/cmu/cs/dickerson/kpd/dynamic/DriverIRIC.java:224-236 | `[1,2,3,3,3,3,3]` over `[1,2,2,2,2,2,2]` with window 3 gives -1 |
| `Dominance.CounterResetExample` | src/edu/cmu/cs/dickerson/kpd/dynamic/DriverIRIC.java:224-236 | `[5,5,1,5,5,5]` over `[5,5,5,5,5,5]` with window 3 gives 2 |
| `Iric.HospitalDominanceSum` | src/edu/cmu/cs/dickerson/kpd/dynamic/DriverIRIC.java:184-190 | the hospital loop sums, per hospital, its dominated period, or `simTimePeriods` when that is negative (`DominanceSum`) |
| `Iric.DominanceSumBounds` | src/edu/cmu/cs/dickerson/kpd/dynamic/DriverIRIC.java:184-190 | with series of length `simTimePeriods`, the sum lies in `[0, H * simTimePeriods]`, H being the hospital count |
| `Iric.ImmediateDominationCountsAsNever` | src/edu/cmu/cs/dickerson/kpd/dynamic/DriverIRIC.java:186-188 | a hospital dominated from period 0 adds `simTimePeriods`, like one never dominated |
| `Iric.BuildRow` | src/edu/cmu/cs/dickerson/kpd/dynamic/DriverIRIC.java:151-192 | the row of one run is `RunRow`: the run's seeds, cell and counts, and the dominance columns computed by the scan with window 10 |
| `Iric.ColumnRules` | src/edu/cmu/cs/dickerson/kpd/dynamic/DriverIRIC.java:170-192 | the dominance columns are -1 / -1.0 exactly when the run is truthful or the truthful run produced nothing; otherwise the overall period is -1 or in `[0, simTimePeriods-11]`, and the per-hospital sum over H hospitals lies in `[0, H * simTimePeriods]`, H being the hospital count |
| `Iric.Product` | src/edu/cmu/cs/dickerson/kpd/dynamic/DriverIRIC.java:86-90 | two nested for-each loops visit (size of xs) × (size of ys) pairs, exactly the pairs of an element of each list |
| `Iric.ProductOrder` | src/edu/cmu/cs/dickerson/kpd/dynamic/DriverIRIC.java:86-90 | two nested for-each loops visit the pair of positions i and j at step i × (size of ys) + j: x varies slowest |
| `Iric.Grid` | src/edu/cmu/cs/dickerson/kpd/dynamic/DriverIRIC.java:86-90 | the five nested parameter loops visit (product of the list sizes) cells, exactly those whose components come from the lists |
| `Iric.GridOrder` | src/edu/cmu/cs/dickerson/kpd/dynamic/DriverIRIC.java:86-90 | the five nested parameter loops visit the cell of positions (a, b, c, d, e) at its mixed-radix step, the outermost list varying slowest |
| `Iric.Experiment.constructor` | src/edu/cmu/cs/dickerson/kpd/dynamic/DriverIRIC.java:82-84 | the seeds start at the clock readings, with 69149 added for the life seed and 104711 for the arrival seed; no rows yet |
| `Iric.Experiment.RunVariant` | src/edu/cmu/cs/dickerson/kpd/dynamic/DriverIRIC.java:115-201 | the three streams are reset to the current seeds; the simulator runs from those seeds and leaves the streams in `consumed(cell, seeds, truthful)`, whether or not it succeeds; a successful truthful run becomes `truthfulRes`; a successful run appends exactly its `RunRow`, a failed one appends nothing and keeps `truthfulRes` |
| `Iric.Experiment.RunPair` | src/edu/cmu/cs/dickerson/kpd/dynamic/DriverIRIC.java:111-202 | starting with no truthful result, both runs start from the same seeds, truthful first, the second reset undoing what the first run drew; the streams end as the non-truthful run leaves them; `truthfulRes` ends as the truthful run's result; the rows are the truthful row (if that run succeeded) then the non-truthful row compared against it (if that run succeeded) |
| `Iric.Experiment.RunRepetition` | src/edu/cmu/cs/dickerson/kpd/dynamic/DriverIRIC.java:98-203 | every seed goes up by exactly 1 and the repetition count by 1, keeping `Valid()`; the pair then runs from the new seeds, with the rows, `truthfulRes` and final stream states of `RunPair` |
| `Iric.Experiment.RunCell` | src/edu/cmu/cs/dickerson/kpd/dynamic/DriverIRIC.java:93-206 | `numReps` repetitions advance the seeds by `numReps` and append `CellRows`, the rows of repetitions 1 to `numReps` in order |
| `Iric.Experiment.SweepCells` | src/edu/cmu/cs/dickerson/kpd/dynamic/DriverIRIC.java:86-211 | the cells run in order, and the seeds are never reset between cells: they advance by cells × repetitions; its loop keeps "rows so far, then the rows of the remaining cells from the current seeds" equal to the rows of the whole sweep |
| `Iric.Experiment.Sweep` | src/edu/cmu/cs/dickerson/kpd/dynamic/DriverIRIC.java:86-211 | the full loop nest runs over `Grid` of the parameter lists, with the seed and row effects of `SweepCells` |
| `Iric.Experiment.PairedRows` | src/edu/cmu/cs/dickerson/kpd/dynamic/DriverIRIC.java:113-201 | a repetition writes at most two rows, both with the same seeds and cell; when both runs succeed it writes two, truthful first |
| `Iric.Experiment.CellRowsSeeds` | src/edu/cmu/cs/dickerson/kpd/dynamic/DriverIRIC.java:93-153 | every row a cell writes carries that cell and the seeds of its own repetition, the starting seeds plus a number from 1 to `numReps`, and the rows appear in the order of their repetitions |
| `Iric.RowsOfRepetitionsSnoc` | src/edu/cmu/cs/dickerson/kpd/dynamic/DriverIRIC.java:93-98 | appending rows that carry the cell and the seeds of repetition n to rows of repetitions 1 to n-1 gives rows of repetitions 1 to n, still in order |
| `Iric.Experiment.CellRowCount` | src/edu/cmu/cs/dickerson/kpd/dynamic/DriverIRIC.java:93-206 | when no run fails, a cell writes two rows per repetition |
| `Iric.Experiment.SweepRowCount` | src/edu/cmu/cs/dickerson/kpd/dynamic/DriverIRIC.java:86-211 | when no run fails, the sweep writes 2 × cells × repetitions rows |
| `Iric.RunDriver` | src/edu/cmu/cs/dickerson/kpd/dynamic/DriverIRIC.java:29-213 | `main` with its compiled-in lists runs 50 repetitions, advances the seeds by 50 from the clock-derived start, and writes exactly the rows of the sweep over `Grid([2, 3], [0], [0], [0], [0])` |

## Left out

- `IRICDynamicSimulator.run` is not modelled; the class takes it as the function `sim`. The same holds for the hospitals' `reset`/`setTruthful`, the pool generator and `ArrivalDistribution.expectedDraw`. `SimWellFormed` states what the model assumes of `sim`'s results.
- `java.util.Random` internals are not modelled. A stream's state is what `setSeed` sets it to, and what a run leaves it in is the parameter `consumed`.
- `meanLifeExpectancy` (line 100) and the hospital set built at lines 104-108 are inputs of the simulator (lines 133 and 137). The model folds them into `sim`'s `cell` argument: the cell's hospital count and life-expectancy distribution determine both. The model keys the hospitals by the ids 0 to |H|-1 that line 107 gives them; the per-hospital series are indexed by those ids, and |H| is the divisor at line 191.
- The expected-pairs total (lines 103, 106 and 109, including `totalExpectedPairsPerPeriod /= hospitals.size()`) and the altruist bounds at lines 126-129 are left out. That total feeds only the floating-point bounds computed with `Math.rint` at lines 127-128, which shape the altruist arrivals inside the simulator. The division by zero for |H| = 0 at line 109 is not modelled either.
- The average at line 191 is a floating-point division; the model keeps its integer operands.
- `System.exit(-1)` at line 180 is left out, together with the console printing at lines 177-179 and 95. Lines 181-192 are modelled as if the exit were absent.
- The `IRICOutput` file is left out: opening it, the `IOException` at line 76, and the write failure that quits at lines 195-201. The model appends each row to `rows`. Column values that come from external objects (generator and distribution names, the arrival and life means, `PCT_ALTRUISTS`) are represented by the cell's list positions or omitted.
- `Iric.Experiment.Sweep`: the five nested loops are flattened into one loop over `Grid`'s cells. The cells are visited in the same order.
- `Iric.Experiment.RunRepetition`: the 64-bit `long` seeds are unbounded integers, so wrap-around after 2^63 increments is not modelled.
- `Dominance.DominatedPeriod`: Java `Integer` list elements are unbounded integers. Null elements and a null list (the `NullPointerException` paths) are not modelled. The counter cannot overflow, because it never exceeds the list size.
- `HashSet` iteration order over hospitals is left out. In the model the hospitals are visited in id order, and the integer sum does not depend on that order.
- All of `DriverApprox.java` is left out: pool generation, cycle enumeration, the CPLEX solver, the greedy packers, CSV output and timing are external, and its own arithmetic is floating point.
