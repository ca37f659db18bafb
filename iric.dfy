/** The integer bookkeeping of DriverIRIC.main: the parameter sweep, the seed
 *  protocol that makes the truthful and the non-truthful run of a pair see
 *  the same randomness, and the dominance columns of each output row.
 *
 *  The dynamic simulator, the hospitals, the pool generator and the output
 *  file are external: the simulator is a function from the parameter cell,
 *  the seeds of the three random streams at the start of the run and the
 *  truthfulness flag to an optional result (None when the solver fails), and
 *  the output file is the sequence of rows recorded so far.
 */
module Iric {
  import opened Dominance

  /** Length of a sustained dominance window (the literal 10 passed to getDominatedPeriod). */
  const DomMaxPeriods: int := 10
  /** Value of the CYCLE_CAP column. */
  const CycleCap: int := 3
  /** Offsets added to the clock reading for the life-expectancy and arrival seeds. */
  const LifeSeedOffset: int := 69149
  const ArrivalSeedOffset: int := 104711
  /** The compiled-in sweep: periods per simulation and repetitions per cell. */
  const SimTimePeriods: nat := 100
  const NumReps: nat := 25

  /** The seeds of the master, arrival and life-expectancy random streams. */
  datatype Seeds = Seeds(main: int, arrival: int, life: int)

  /** Each of the three seeds moved on by n. */
  function Advance(s: Seeds, n: int): Seeds
  {
    Seeds(s.main + n, s.arrival + n, s.life + n)
  }

  /** One parameter vector of the sweep: |H|, the chain cap, and the positions of
   *  the generator and of the two distributions in their lists. */
  datatype Cell = Cell(numHospitals: nat, chainCap: int, generator: nat,
                       arrivalDist: nat, lifeExpectancyDist: nat)

  /** What a simulator run reports: total, internal and external matched
   *  vertices, the cumulative matches per period, and the same per hospital
   *  (indexed by hospital id). */
  datatype SimData = SimData(numMatched: int, numInternallyMatched: int,
                             numExternallyMatched: int,
                             numMatchedSoFar: seq<int>,
                             hospNumMatchSoFar: seq<seq<int>>)

  /** A run's series have one entry per simulated period, for the aggregate and
   *  for each of the |H| hospitals. */
  predicate WellFormed(d: SimData, numHospitals: nat, simTimePeriods: nat)
  {
    |d.numMatchedSoFar| == simTimePeriods &&
    |d.hospNumMatchSoFar| == numHospitals &&
    forall h :: 0 <= h < |d.hospNumMatchSoFar| ==> |d.hospNumMatchSoFar[h]| == simTimePeriods
  }

  /** The simulator only ever reports well-formed results. */
  ghost predicate SimWellFormed(sim: (Cell, Seeds, bool) -> Option<SimData>, simTimePeriods: nat)
  {
    forall c: Cell, s: Seeds, t: bool :: sim(c, s, t).Some? ==>
      WellFormed(sim(c, s, t).value, c.numHospitals, simTimePeriods)
  }

  /** AVG_HOSPITAL_DOMINATED_TIME_PERIOD: either -1.0, or the integer sum of the
   *  per-hospital terms divided by |H| (the division is in floating point). */
  datatype AvgColumn = NoAverage | AverageOf(sum: int, count: nat)

  /** The columns of one output row that this model tracks. */
  datatype Row = Row(seeds: Seeds, cycleCap: int, cell: Cell, truthful: bool,
                     numTimePeriods: nat, numMatched: int,
                     numInternallyMatched: int, numExternallyMatched: int,
                     overallDominatedPeriod: int,
                     avgHospitalDominatedPeriod: AvgColumn)

  /** getDominatedPeriod's value on series where the dominatee lasts at least as long. */
  function PeriodOf(a: seq<int>, b: seq<int>, w: int): int
    requires |a| <= |b|
  {
    EqualLengthsGivePeriod(a, b, w);
    DominatedPeriodOf(a, b, w).p
  }

  /** A hospital that is never dominated counts as dominated at the last period. */
  function HospitalTerm(domPeriod: int, simTimePeriods: int): int
  {
    if domPeriod < 0 then simTimePeriods else domPeriod
  }

  /** Every truthful per-hospital series has a non-truthful partner at least as long. */
  predicate SameShape(truth: seq<seq<int>>, res: seq<seq<int>>)
  {
    |truth| == |res| && forall h :: 0 <= h < |truth| ==> |truth[h]| <= |res[h]|
  }

  /** The per-hospital dominance sum hospDomTimePeriodCt. */
  function DominanceSum(truth: seq<seq<int>>, res: seq<seq<int>>, simTimePeriods: int): int
    requires SameShape(truth, res)
  {
    if |truth| == 0 then 0
    else
      var n := |truth| - 1;
      DominanceSum(truth[..n], res[..n], simTimePeriods)
      + HospitalTerm(PeriodOf(truth[n], res[n], DomMaxPeriods), simTimePeriods)
  }

  /** The loop over hospitals that accumulates the per-hospital dominance periods. */
  method HospitalDominanceSum(truth: seq<seq<int>>, res: seq<seq<int>>, simTimePeriods: int)
    returns (hospDomTimePeriodCt: int)
    requires SameShape(truth, res)
    ensures hospDomTimePeriodCt == DominanceSum(truth, res, simTimePeriods)
  {
    hospDomTimePeriodCt := 0;
    for h := 0 to |truth|
      invariant hospDomTimePeriodCt == DominanceSum(truth[..h], res[..h], simTimePeriods)
    {
      assert truth[..h + 1][..h] == truth[..h] && res[..h + 1][..h] == res[..h];
      var r := DominatedPeriod(truth[h], res[h], DomMaxPeriods);
      EqualLengthsGivePeriod(truth[h], res[h], DomMaxPeriods);
      var domPeriod := r.p;
      if domPeriod < 0 { domPeriod := simTimePeriods; }
      hospDomTimePeriodCt := hospDomTimePeriodCt + domPeriod;
    }
    assert truth[..|truth|] == truth && res[..|res|] == res;
  }

  /** With every series simTimePeriods long, each term lies in [0, simTimePeriods],
   *  so the sum lies in [0, |H| * simTimePeriods]. */
  lemma {:induction false} DominanceSumBounds(truth: seq<seq<int>>, res: seq<seq<int>>, simTimePeriods: nat)
    requires |truth| == |res|
    requires forall h :: 0 <= h < |truth| ==> |truth[h]| == simTimePeriods == |res[h]|
    ensures 0 <= DominanceSum(truth, res, simTimePeriods) <= |truth| * simTimePeriods
  {
    if |truth| > 0 {
      var n := |truth| - 1;
      DominanceSumBounds(truth[..n], res[..n], simTimePeriods);
      PeriodRange(truth[n], res[n], DomMaxPeriods);
      assert |truth| * simTimePeriods == n * simTimePeriods + simTimePeriods;
    }
  }

  /** The row written for one run (lines 151-192, without the process exit). */
  function RunRow(cell: Cell, seeds: Seeds, simTimePeriods: nat, isTruthful: bool,
                  res: SimData, truthfulRes: Option<SimData>): Row
    requires WellFormed(res, cell.numHospitals, simTimePeriods)
    requires truthfulRes.Some? ==> WellFormed(truthfulRes.value, cell.numHospitals, simTimePeriods)
  {
    var dominated := !isTruthful && truthfulRes.Some?;
    Row(seeds, CycleCap, cell, isTruthful, simTimePeriods, res.numMatched,
        res.numInternallyMatched, res.numExternallyMatched,
        if dominated
        then PeriodOf(truthfulRes.value.numMatchedSoFar, res.numMatchedSoFar, DomMaxPeriods)
        else -1,
        if dominated
        then AverageOf(DominanceSum(truthfulRes.value.hospNumMatchSoFar,
                                    res.hospNumMatchSoFar, simTimePeriods),
                       cell.numHospitals)
        else NoAverage)
  }

  /** Builds the row of one run, calling the scan once for the aggregate series
   *  and once per hospital. */
  method BuildRow(cell: Cell, seeds: Seeds, simTimePeriods: nat, isTruthful: bool,
                  res: SimData, truthfulRes: Option<SimData>) returns (row: Row)
    requires WellFormed(res, cell.numHospitals, simTimePeriods)
    requires truthfulRes.Some? ==> WellFormed(truthfulRes.value, cell.numHospitals, simTimePeriods)
    ensures row == RunRow(cell, seeds, simTimePeriods, isTruthful, res, truthfulRes)
  {
    var overall := -1;
    var avg := NoAverage;
    if !(isTruthful || truthfulRes.None?) {
      var tr := truthfulRes.value;
      var r := DominatedPeriod(tr.numMatchedSoFar, res.numMatchedSoFar, DomMaxPeriods);
      EqualLengthsGivePeriod(tr.numMatchedSoFar, res.numMatchedSoFar, DomMaxPeriods);
      overall := r.p;
      var hospDomTimePeriodCt := HospitalDominanceSum(tr.hospNumMatchSoFar, res.hospNumMatchSoFar, simTimePeriods);
      avg := AverageOf(hospDomTimePeriodCt, cell.numHospitals);
    }
    row := Row(seeds, CycleCap, cell, isTruthful, simTimePeriods, res.numMatched,
               res.numInternallyMatched, res.numExternallyMatched, overall, avg);
  }

  /** The dominance columns: -1 and -1.0 for the truthful run and whenever the
   *  truthful run of the pair produced nothing; otherwise the overall period is
   *  -1 or leaves room for a whole window, and the per-hospital sum lies in
   *  [0, |H| * simTimePeriods].  The run's own counts and seeds are copied. */
  lemma ColumnRules(cell: Cell, seeds: Seeds, simTimePeriods: nat, isTruthful: bool,
                    res: SimData, truthfulRes: Option<SimData>)
    requires WellFormed(res, cell.numHospitals, simTimePeriods)
    requires truthfulRes.Some? ==> WellFormed(truthfulRes.value, cell.numHospitals, simTimePeriods)
    ensures var row := RunRow(cell, seeds, simTimePeriods, isTruthful, res, truthfulRes);
      row.seeds == seeds && row.truthful == isTruthful && row.numMatched == res.numMatched &&
      ((isTruthful || truthfulRes.None?) <==>
         (row.avgHospitalDominatedPeriod == NoAverage)) &&
      ((isTruthful || truthfulRes.None?) ==> row.overallDominatedPeriod == -1) &&
      (!isTruthful && truthfulRes.Some? ==>
         var p := row.overallDominatedPeriod;
         (p == -1 || 0 <= p <= simTimePeriods - 1 - DomMaxPeriods) &&
         row.avgHospitalDominatedPeriod.count == cell.numHospitals &&
         0 <= row.avgHospitalDominatedPeriod.sum <= cell.numHospitals * simTimePeriods)
  {
    if !isTruthful && truthfulRes.Some? {
      var tr := truthfulRes.value;
      PeriodRange(tr.numMatchedSoFar, res.numMatchedSoFar, DomMaxPeriods);
      DominanceSumBounds(tr.hospNumMatchSoFar, res.hospNumMatchSoFar, simTimePeriods);
    }
  }

  /** A per-hospital window that starts at period 0 is reported as -1 and so is
   *  counted in the sum as simTimePeriods, exactly like a hospital that is
   *  never dominated. */
  lemma ImmediateDominationCountsAsNever(a: seq<int>, b: seq<int>, simTimePeriods: int)
    requires |a| <= |b| && WindowEndsAt(a, b, DomMaxPeriods, DomMaxPeriods - 1)
    ensures HospitalTerm(PeriodOf(a, b, DomMaxPeriods), simTimePeriods) == simTimePeriods
  {
    WindowAtStartGivesMinusOne(a, b, DomMaxPeriods);
  }

  /** All pairs (x, y) with x from xs and y from ys, x varying slowest (the
   *  order of two nested for-each loops). */
  function Product<X(!new), Y(!new)>(xs: seq<X>, ys: seq<Y>): (r: seq<(X, Y)>)
    ensures |r| == |xs| * |ys|
    ensures forall x, y {:trigger (x, y) in r} :: (x, y) in r <==> x in xs && y in ys
  {
    if |xs| == 0 then []
    else
      var row := seq(|ys|, j requires 0 <= j < |ys| => (xs[0], ys[j]));
      var rest := Product(xs[1..], ys);
      assert forall y :: y in ys ==> (xs[0], y) in row by {
        forall y | y in ys ensures (xs[0], y) in row {
          var j :| 0 <= j < |ys| && ys[j] == y;
          assert row[j] == (xs[0], y);
        }
      }
      row + rest
  }

  /** The order of two nested for-each loops: the pair (xs[i], ys[j]) is
   *  visited at position i * |ys| + j, so x varies slowest and each pair of
   *  positions is visited once. */
  lemma {:induction false} ProductOrder<X(!new), Y(!new)>(xs: seq<X>, ys: seq<Y>, i: nat, j: nat)
    requires i < |xs| && j < |ys|
    ensures i * |ys| + j < |Product(xs, ys)|
    ensures Product(xs, ys)[i * |ys| + j] == (xs[i], ys[j])
  {
    var rest := Product(xs[1..], ys);
    if i > 0 {
      ProductOrder(xs[1..], ys, i - 1, j);
      assert i * |ys| + j == |ys| + ((i - 1) * |ys| + j);
      assert xs[1..][i - 1] == xs[i];
    }
  }

  /** The parameter cells in the order of the five nested loops of main. */
  function Grid(numHospitalsList: seq<nat>, chainCapList: seq<int>, genList: seq<nat>,
                arrivalDistList: seq<nat>, lifeExpectancyDistList: seq<nat>): (cells: seq<Cell>)
    ensures |cells| == |numHospitalsList| * (|chainCapList| * (|genList| *
                         (|arrivalDistList| * |lifeExpectancyDistList|)))
    ensures forall c {:trigger c in cells} :: c in cells <==>
      c.numHospitals in numHospitalsList && c.chainCap in chainCapList &&
      c.generator in genList && c.arrivalDist in arrivalDistList &&
      c.lifeExpectancyDist in lifeExpectancyDistList
  {
    var p := Product(numHospitalsList, Product(chainCapList, Product(genList,
               Product(arrivalDistList, lifeExpectancyDistList))));
    var cells := seq(|p|, i requires 0 <= i < |p| =>
      Cell(p[i].0, p[i].1.0, p[i].1.1.0, p[i].1.1.1.0, p[i].1.1.1.1));
    assert forall c :: c in cells <==>
      (c.numHospitals, (c.chainCap, (c.generator, (c.arrivalDist, c.lifeExpectancyDist)))) in p
    by {
      forall c ensures c in cells <==>
        (c.numHospitals, (c.chainCap, (c.generator, (c.arrivalDist, c.lifeExpectancyDist)))) in p
      {
        var q := (c.numHospitals, (c.chainCap, (c.generator, (c.arrivalDist, c.lifeExpectancyDist))));
        if q in p {
          var i :| 0 <= i < |p| && p[i] == q;
          assert cells[i] == c;
        }
      }
    }
    cells
  }

  /** Concatenation of sequences is associative. */
  lemma AppendAssoc<T>(a: seq<T>, b: seq<T>, c: seq<T>)
    ensures (a + b) + c == a + (b + c)
  {
  }

  /** Rows written by repetitions 1 to n of one cell after seeds s: each row
   *  carries the cell and the seeds of its repetition, s advanced by a number
   *  in [1, n], and the repetitions appear in order. */
  predicate RowsOfRepetitions(rs: seq<Row>, cell: Cell, s: Seeds, n: nat)
  {
    (forall k :: 0 <= k < |rs| ==>
       rs[k].cell == cell && 1 <= rs[k].seeds.main - s.main <= n &&
       rs[k].seeds == Advance(s, rs[k].seeds.main - s.main)) &&
    (forall k, l :: 0 <= k < l < |rs| ==> rs[k].seeds.main <= rs[l].seeds.main)
  }

  /** Appending the rows of repetition n to those of repetitions 1 to n - 1. */
  lemma RowsOfRepetitionsSnoc(a: seq<Row>, b: seq<Row>, cell: Cell, s: Seeds, n: nat)
    requires n >= 1 && RowsOfRepetitions(a, cell, s, n - 1)
    requires forall k :: 0 <= k < |b| ==> b[k].cell == cell && b[k].seeds == Advance(s, n)
    ensures RowsOfRepetitions(a + b, cell, s, n)
  {
    var rs := a + b;
    forall k | 0 <= k < |rs|
      ensures rs[k].cell == cell && 1 <= rs[k].seeds.main - s.main <= n &&
              rs[k].seeds == Advance(s, rs[k].seeds.main - s.main)
    {
      if k >= |a| {
        assert rs[k] == b[k - |a|];
      } else {
        assert rs[k] == a[k];
      }
    }
    forall k, l | 0 <= k < l < |rs|
      ensures rs[k].seeds.main <= rs[l].seeds.main
    {
      if l >= |a| {
        assert rs[l] == b[l - |a|];
      } else {
        assert rs[k] == a[k] && rs[l] == a[l];
      }
    }
  }

  /** Position j of block i when every block holds n entries. */
  function Offset(i: nat, n: nat, j: nat): nat
  {
    i * n + j
  }

  /** ProductOrder with the position written as an Offset. */
  lemma ProductAt<X(!new), Y(!new)>(xs: seq<X>, ys: seq<Y>, i: nat, j: nat)
    requires i < |xs| && j < |ys|
    ensures Offset(i, |ys|, j) < |Product(xs, ys)|
    ensures Product(xs, ys)[Offset(i, |ys|, j)] == (xs[i], ys[j])
  {
    ProductOrder(xs, ys, i, j);
  }

  /** The order of the five nested parameter loops: the cell built from
   *  positions a, b, c, d and e of the lists comes at the mixed-radix position
   *  of (a, b, c, d, e), the first list varying slowest. */
  lemma GridOrder(numHospitalsList: seq<nat>, chainCapList: seq<int>, genList: seq<nat>,
                  arrivalDistList: seq<nat>, lifeExpectancyDistList: seq<nat>,
                  a: nat, b: nat, c: nat, d: nat, e: nat)
    requires a < |numHospitalsList| && b < |chainCapList| && c < |genList|
    requires d < |arrivalDistList| && e < |lifeExpectancyDistList|
    ensures var n5 := |lifeExpectancyDistList|;
      var n4 := |arrivalDistList| * n5;
      var n3 := |genList| * n4;
      var n2 := |chainCapList| * n3;
      var k := Offset(a, n2, Offset(b, n3, Offset(c, n4, Offset(d, n5, e))));
      var cells := Grid(numHospitalsList, chainCapList, genList, arrivalDistList, lifeExpectancyDistList);
      k < |cells| &&
      cells[k] == Cell(numHospitalsList[a], chainCapList[b], genList[c], arrivalDistList[d],
                       lifeExpectancyDistList[e])
  {
    var p4 := Product(arrivalDistList, lifeExpectancyDistList);
    var p3 := Product(genList, p4);
    var p2 := Product(chainCapList, p3);
    var k4 := Offset(d, |lifeExpectancyDistList|, e);
    ProductAt(arrivalDistList, lifeExpectancyDistList, d, e);
    var k3 := Offset(c, |p4|, k4);
    ProductAt(genList, p4, c, k4);
    var k2 := Offset(b, |p3|, k3);
    ProductAt(chainCapList, p3, b, k3);
    ProductAt(numHospitalsList, p2, a, k2);
  }

  /** The driver's state across the sweep: the three seeds, the states of the
   *  three random streams, the truthful result of the current pair, and the
   *  rows written so far.  A stream's state is what setSeed sets it to; a
   *  simulator run draws from all three streams and leaves them in the states
   *  `consumed` gives for the cell, the states the run started from and the
   *  truthfulness flag. */
  class Experiment {
    const sim: (Cell, Seeds, bool) -> Option<SimData>
    const consumed: (Cell, Seeds, bool) -> Seeds
    const simTimePeriods: nat
    ghost const initialSeeds: Seeds

    var seedMain: int
    var seedArrival: int
    var seedLife: int
    var mainRng: int
    var arrivalRng: int
    var lifeRng: int
    var truthfulRes: Option<SimData>
    var rows: seq<Row>
    /** The number of repetitions run so far, over all cells. */
    ghost var repetitions: nat

    function CurrentSeeds(): Seeds
      reads this
    {
      Seeds(seedMain, seedArrival, seedLife)
    }

    /** The seeds have been advanced by one per repetition, and never reset. */
    ghost predicate Valid()
      reads this
    {
      SimWellFormed(sim, simTimePeriods) &&
      CurrentSeeds() == Advance(initialSeeds, repetitions)
    }

    /** Lines 82-84: the seeds come from three clock readings. */
    constructor (sim: (Cell, Seeds, bool) -> Option<SimData>, consumed: (Cell, Seeds, bool) -> Seeds,
                 simTimePeriods: nat, clockMain: int, clockLife: int, clockArrival: int)
      requires SimWellFormed(sim, simTimePeriods)
      ensures Valid()
      ensures this.sim == sim && this.consumed == consumed && this.simTimePeriods == simTimePeriods
      ensures seedMain == clockMain && seedLife == clockLife + LifeSeedOffset &&
              seedArrival == clockArrival + ArrivalSeedOffset
      ensures rows == [] && repetitions == 0 && truthfulRes == None
    {
      this.sim := sim;
      this.consumed := consumed;
      this.simTimePeriods := simTimePeriods;
      seedMain := clockMain;
      seedLife := clockLife + LifeSeedOffset;
      seedArrival := clockArrival + ArrivalSeedOffset;
      initialSeeds := Seeds(clockMain, clockArrival + ArrivalSeedOffset, clockLife + LifeSeedOffset);
      truthfulRes := None;
      rows := [];
      repetitions := 0;
    }

    /** The rows one repetition writes when both runs start from seeds s: the
     *  truthful row if that run succeeded, then the non-truthful row if that
     *  run succeeded. */
    function RepetitionRows(cell: Cell, s: Seeds): seq<Row>
      requires SimWellFormed(sim, simTimePeriods)
    {
      var t := sim(cell, s, true);
      var f := sim(cell, s, false);
      (if t.Some? then [RunRow(cell, s, simTimePeriods, true, t.value, t)] else []) +
      (if f.Some? then [RunRow(cell, s, simTimePeriods, false, f.value, t)] else [])
    }

    /** The rows of numReps repetitions of one cell, starting after seeds s. */
    function CellRows(cell: Cell, s: Seeds, numReps: nat): seq<Row>
      requires SimWellFormed(sim, simTimePeriods)
    {
      if numReps == 0 then []
      else CellRows(cell, s, numReps - 1) + RepetitionRows(cell, Advance(s, numReps))
    }

    /** The rows of the whole sweep over cells, starting after seeds s. */
    function SweepRows(cells: seq<Cell>, s: Seeds, numReps: nat): seq<Row>
      requires SimWellFormed(sim, simTimePeriods)
    {
      if |cells| == 0 then []
      else CellRows(cells[0], s, numReps) + SweepRows(cells[1..], Advance(s, numReps), numReps)
    }

    /** One pass of the truthful/non-truthful loop (lines 115-201): reset the
     *  three streams to the current seeds, run the simulator from them (which
     *  moves the streams on, whether or not it produces a result), and, if it
     *  produced a result, remember it when truthful and write its row. */
    method RunVariant(cell: Cell, isTruthful: bool)
      requires SimWellFormed(sim, simTimePeriods)
      requires truthfulRes.Some? ==> WellFormed(truthfulRes.value, cell.numHospitals, simTimePeriods)
      modifies this`mainRng, this`arrivalRng, this`lifeRng, this`truthfulRes, this`rows
      ensures Seeds(mainRng, arrivalRng, lifeRng) == consumed(cell, CurrentSeeds(), isTruthful)
      ensures var res := sim(cell, CurrentSeeds(), isTruthful);
        truthfulRes == (if isTruthful && res.Some? then res else old(truthfulRes)) &&
        rows == old(rows) +
          (if res.Some? then [RunRow(cell, CurrentSeeds(), simTimePeriods, isTruthful, res.value, truthfulRes)]
           else [])
    {
      mainRng := seedMain;
      arrivalRng := seedArrival;
      lifeRng := seedLife;
      var start := Seeds(mainRng, arrivalRng, lifeRng);
      var res := sim(cell, start, isTruthful);
      var after := consumed(cell, start, isTruthful);
      mainRng, arrivalRng, lifeRng := after.main, after.arrival, after.life;
      if res.None? {
        return;
      }
      if isTruthful {
        truthfulRes := res;
      }
      var row := BuildRow(cell, CurrentSeeds(), simTimePeriods, isTruthful, res.value, truthfulRes);
      rows := rows + [row];
    }

    /** The truthful/non-truthful loop (lines 113-202): both variants run from
     *  the current seeds, truthful first (the reset before the second run
     *  undoes what the first run drew), and the non-truthful row is set
     *  against the truthful result of the same pair. */
    method RunPair(cell: Cell)
      requires SimWellFormed(sim, simTimePeriods)
      requires truthfulRes == None
      modifies this`mainRng, this`arrivalRng, this`lifeRng, this`truthfulRes, this`rows
      ensures Seeds(mainRng, arrivalRng, lifeRng) == consumed(cell, CurrentSeeds(), false)
      ensures truthfulRes == sim(cell, CurrentSeeds(), true)
      ensures rows == old(rows) + RepetitionRows(cell, CurrentSeeds())
    {
      ghost var s := CurrentSeeds();
      ghost var t := sim(cell, s, true);
      ghost var f := sim(cell, s, false);
      ghost var tRows := if t.Some? then [RunRow(cell, s, simTimePeriods, true, t.value, t)] else [];
      ghost var fRows := if f.Some? then [RunRow(cell, s, simTimePeriods, false, f.value, t)] else [];
      assert RepetitionRows(cell, s) == tRows + fRows;
      AppendAssoc(old(rows), tRows, fRows);
      var flags := [true, false];
      for i := 0 to 2
        invariant i == 1 ==> Seeds(mainRng, arrivalRng, lifeRng) == consumed(cell, s, true)
        invariant i == 2 ==> Seeds(mainRng, arrivalRng, lifeRng) == consumed(cell, s, false)
        invariant truthfulRes == (if i == 0 then None else t)
        invariant rows == old(rows) + (if i == 0 then [] else if i == 1 then tRows else tRows + fRows)
      {
        RunVariant(cell, flags[i]);
      }
    }

    /** One repetition (lines 98 and 111-203): advance every seed by one and
     *  forget the previous truthful result, then run the pair. */
    method RunRepetition(cell: Cell)
      requires Valid()
      modifies this
      ensures Valid()
      ensures repetitions == old(repetitions) + 1
      ensures CurrentSeeds() == Advance(old(CurrentSeeds()), 1)
      ensures Seeds(mainRng, arrivalRng, lifeRng) == consumed(cell, CurrentSeeds(), false)
      ensures truthfulRes == sim(cell, CurrentSeeds(), true)
      ensures rows == old(rows) + RepetitionRows(cell, CurrentSeeds())
    {
      seedLife := seedLife + 1;
      seedArrival := seedArrival + 1;
      seedMain := seedMain + 1;
      repetitions := repetitions + 1;
      truthfulRes := None;
      RunPair(cell);
    }

    /** The innermost loop: numReps repetitions of one cell. */
    method RunCell(cell: Cell, numReps: nat)
      requires Valid()
      modifies this
      ensures Valid()
      ensures repetitions == old(repetitions) + numReps
      ensures CurrentSeeds() == Advance(old(CurrentSeeds()), numReps)
      ensures rows == old(rows) + CellRows(cell, old(CurrentSeeds()), numReps)
    {
      ghost var s0 := CurrentSeeds();
      for rep := 0 to numReps
        invariant Valid()
        invariant repetitions == old(repetitions) + rep
        invariant CurrentSeeds() == Advance(s0, rep)
        invariant rows == old(rows) + CellRows(cell, s0, rep)
      {
        assert CellRows(cell, s0, rep + 1) ==
               CellRows(cell, s0, rep) + RepetitionRows(cell, Advance(s0, rep + 1));
        AppendAssoc(old(rows), CellRows(cell, s0, rep), RepetitionRows(cell, Advance(s0, rep + 1)));
        RunRepetition(cell);
      }
    }

    /** The whole of main's loop nest: every cell of the grid in order, each
     *  repeated numReps times; the seeds are never reset between cells. */
    method Sweep(numHospitalsList: seq<nat>, chainCapList: seq<int>, genList: seq<nat>,
                 arrivalDistList: seq<nat>, lifeExpectancyDistList: seq<nat>, numReps: nat)
      requires Valid()
      modifies this
      ensures Valid()
      ensures var cells := Grid(numHospitalsList, chainCapList, genList,
                                arrivalDistList, lifeExpectancyDistList);
        CurrentSeeds() == Advance(old(CurrentSeeds()), |cells| * numReps) &&
        repetitions == old(repetitions) + |cells| * numReps &&
        rows == old(rows) + SweepRows(cells, old(CurrentSeeds()), numReps)
    {
      var cells := Grid(numHospitalsList, chainCapList, genList, arrivalDistList, lifeExpectancyDistList);
      SweepCells(cells, numReps);
    }

    /** The loop nest flattened into one loop over the cells, in order: the
     *  rows written so far followed by the rows of the remaining cells from
     *  the current seeds are always the rows of the whole sweep. */
    method SweepCells(cells: seq<Cell>, numReps: nat)
      requires Valid()
      modifies this
      ensures Valid()
      ensures CurrentSeeds() == Advance(old(CurrentSeeds()), |cells| * numReps)
      ensures repetitions == old(repetitions) + |cells| * numReps
      ensures rows == old(rows) + SweepRows(cells, old(CurrentSeeds()), numReps)
    {
      ghost var s0 := CurrentSeeds();
      for i := 0 to |cells|
        invariant Valid()
        invariant repetitions == old(repetitions) + i * numReps
        invariant CurrentSeeds() == Advance(s0, i * numReps)
        invariant rows + SweepRows(cells[i..], CurrentSeeds(), numReps) ==
                  old(rows) + SweepRows(cells, s0, numReps)
      {
        ghost var cur := CurrentSeeds();
        ghost var rest := SweepRows(cells[i + 1..], Advance(cur, numReps), numReps);
        assert cells[i..][1..] == cells[i + 1..];
        assert SweepRows(cells[i..], cur, numReps) == CellRows(cells[i], cur, numReps) + rest;
        AppendAssoc(rows, CellRows(cells[i], cur, numReps), rest);
        RunCell(cells[i], numReps);
        assert (i + 1) * numReps == i * numReps + numReps;
      }
      assert cells[|cells|..] == [];
    }

    /** Within a repetition both rows carry the same seeds; when both runs
     *  succeed, exactly two rows are written, truthful first. */
    lemma PairedRows(cell: Cell, s: Seeds)
      requires SimWellFormed(sim, simTimePeriods)
      ensures var rs := RepetitionRows(cell, s);
        |rs| <= 2 &&
        (forall k :: 0 <= k < |rs| ==> rs[k].seeds == s && rs[k].cell == cell) &&
        (sim(cell, s, true).Some? && sim(cell, s, false).Some? ==>
           |rs| == 2 && rs[0].truthful && !rs[1].truthful)
    {
      var t := sim(cell, s, true);
      var f := sim(cell, s, false);
      if t.Some? {
        ColumnRules(cell, s, simTimePeriods, true, t.value, t);
      }
      if f.Some? {
        ColumnRules(cell, s, simTimePeriods, false, f.value, t);
      }
    }

    /** Every row of a cell carries that cell and the seeds of its own
     *  repetition, s advanced by 1 to numReps, and the rows come in the order
     *  of their repetitions. */
    lemma {:induction false} CellRowsSeeds(cell: Cell, s: Seeds, numReps: nat)
      requires SimWellFormed(sim, simTimePeriods)
      ensures RowsOfRepetitions(CellRows(cell, s, numReps), cell, s, numReps)
    {
      if numReps > 0 {
        var a := CellRows(cell, s, numReps - 1);
        var b := RepetitionRows(cell, Advance(s, numReps));
        CellRowsSeeds(cell, s, numReps - 1);
        PairedRows(cell, Advance(s, numReps));
        assert CellRows(cell, s, numReps) == a + b;
        RowsOfRepetitionsSnoc(a, b, cell, s, numReps);
      }
    }

    /** When no run fails, the sweep writes exactly one row per run: two per
     *  repetition of each cell. */
    lemma {:induction false} SweepRowCount(cells: seq<Cell>, s: Seeds, numReps: nat)
      requires SimWellFormed(sim, simTimePeriods)
      requires forall c: Cell, s': Seeds, t: bool :: sim(c, s', t).Some?
      ensures |SweepRows(cells, s, numReps)| == 2 * (|cells| * numReps)
    {
      if |cells| > 0 {
        SweepRowCount(cells[1..], Advance(s, numReps), numReps);
        CellRowCount(cells[0], s, numReps);
        assert |cells| * numReps == (|cells| - 1) * numReps + numReps;
      }
    }

    lemma {:induction false} CellRowCount(cell: Cell, s: Seeds, numReps: nat)
      requires SimWellFormed(sim, simTimePeriods)
      requires forall c: Cell, s': Seeds, t: bool :: sim(c, s', t).Some?
      ensures |CellRows(cell, s, numReps)| == 2 * numReps
    {
      if numReps > 0 {
        CellRowCount(cell, s, numReps - 1);
        PairedRows(cell, Advance(s, numReps));
      }
    }
  }

  /** main with its compiled-in parameters: |H| in {2, 3}, chain cap 0, one
   *  generator, one arrival and one life-expectancy distribution, 100 periods
   *  and 25 repetitions, so 50 repetitions in all. */
  method RunDriver(sim: (Cell, Seeds, bool) -> Option<SimData>, consumed: (Cell, Seeds, bool) -> Seeds,
                   clockMain: int, clockLife: int, clockArrival: int)
    returns (e: Experiment)
    requires SimWellFormed(sim, SimTimePeriods)
    ensures e.Valid() && e.sim == sim && e.consumed == consumed && e.simTimePeriods == SimTimePeriods
    ensures e.repetitions == 50
    ensures e.CurrentSeeds() ==
      Advance(Seeds(clockMain, clockArrival + ArrivalSeedOffset, clockLife + LifeSeedOffset), 50)
    ensures e.rows == e.SweepRows(Grid([2, 3], [0], [0], [0], [0]),
      Seeds(clockMain, clockArrival + ArrivalSeedOffset, clockLife + LifeSeedOffset), NumReps)
  {
    e := new Experiment(sim, consumed, SimTimePeriods, clockMain, clockLife, clockArrival);
    e.Sweep([2, 3], [0], [0], [0], [0], NumReps);
  }
}
